/**
 The authorization revocation checkpoint: non-secret proof, saved in config.json,
 that the grants in exactly these slots were revoked before any slot is deleted.
 */
module GrantCheckpoints {
  import opened Records

  function CheckpointOf(e: Envelope): SlotCheckpoint {
    SlotCheckpoint(e.schema, e.state, e.generation, e.profile, e.canonical, e.client, Digest(e.token),
                   e.tokenId, e.expires, e.user, e.relay, e.created, e.updated)
  }

  predicate Matches(cp: SlotCheckpoint, e: Envelope) {
    && cp.schema == e.schema
    && cp.state == e.state
    && cp.generation == e.generation
    && cp.profile == e.profile
    && cp.canonical == e.canonical
    && cp.client == e.client
    && cp.digest == Digest(e.token)
    && cp.tokenId == e.tokenId
    && cp.expires == e.expires
    && cp.user == e.user
    && cp.relay == e.relay
    && cp.created == e.created
    && cp.updated == e.updated
  }

  function CheckpointSlot(e: Option<Envelope>): Option<SlotCheckpoint> {
    if e.Some? then Some(CheckpointOf(e.value)) else None
  }

  /** None when there is nothing to prove and no Owner confirmation. */
  function NewCheckpoint(s: Slots, ownerConfirmed: bool): Option<GrantCheckpoint> {
    if s == NO_SLOTS && !ownerConfirmed then None
    else Some(GrantCheckpoint(CheckpointSlot(s.current), CheckpointSlot(s.pending), CheckpointSlot(s.retiring),
                              ownerConfirmed))
  }

  /** A stored slot must be the one the checkpoint names; a deleted one is fine. */
  predicate SlotCovered(cp: Option<SlotCheckpoint>, e: Option<Envelope>) {
    e.Some? ==> cp.Some? && Matches(cp.value, e.value)
  }

  predicate Covers(cp: GrantCheckpoint, s: Slots) {
    && SlotCovered(cp.current, s.current)
    && SlotCovered(cp.pending, s.pending)
    && SlotCovered(cp.retiring, s.retiring)
  }

  /** Two envelopes pass the same checkpoint exactly when they agree in every field. */
  lemma MatchIsEquality(saved: Envelope, stored: Envelope)
    ensures Matches(CheckpointOf(saved), stored) <==> saved == stored
  {
    if Matches(CheckpointOf(saved), stored) {
      assert Digest(saved.token) == Digest(stored.token);
    }
  }

  /**
   A checkpoint accepts exactly what is left of the slots it was made for: after any
   deletions it still validates, and a slot that differs in any field blocks.
   */
  lemma CoversExactly(saved: Slots, left: Slots, ownerConfirmed: bool)
    requires NewCheckpoint(saved, ownerConfirmed).Some?
    ensures Covers(NewCheckpoint(saved, ownerConfirmed).value, left) <==>
      && left.current in {None, saved.current} && left.pending in {None, saved.pending}
      && left.retiring in {None, saved.retiring}
  {
    if left.current.Some? && saved.current.Some? {
      MatchIsEquality(saved.current.value, left.current.value);
    }
    if left.pending.Some? && saved.pending.Some? {
      MatchIsEquality(saved.pending.value, left.pending.value);
    }
    if left.retiring.Some? && saved.retiring.Some? {
      MatchIsEquality(saved.retiring.value, left.retiring.value);
    }
  }
}

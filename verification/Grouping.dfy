/** Which rows may share a phase: the group keys of the compiler, and the slot a phase is kept under. */
module Grouping {

  datatype Owner = RequestOwner(request: nat) | LogicalOwner(logical: nat) | TaskOwner(task: nat)
                 | PrefillOwner | DecodeOwner

  datatype Wave = Named(name: string) | BatchRead(batch: nat, layer: nat) | BatchWrite(batch: nat, layer: nat)
                | InputRead(batch: nat)

  /** Batch-wide groups have the PREFILL or DECODE owner and no parents in their key. */
  datatype Key = Key(owner: Owner, wave: Wave, parents: seq<nat>)

  predicate BatchWide(key: Key) {
    key.owner.PrefillOwner? || key.owner.DecodeOwner?
  }

  type Signature = (string, seq<nat>)

  /** Who may still add members to a phase: a shared group, a group local to one request (or row), or one task alone. */
  datatype Slot = Shared(key: Key) | Private(owner: Owner, signature: Signature) | Own(task: nat)

  /** A phase stays in its slot. */
  ghost predicate SlotsKept(slots: map<nat, Slot>, slots': map<nat, Slot>) {
    forall p | p in slots :: p in slots' && slots'[p] == slots[p]
  }
}

/** The handles a client keeps to a connected slot: `connection`, the RAII
    `connection_blocker` and the RAII `scoped_connection`. Each holds a weak
    reference to the slot; once the signal no longer owns the slot the
    reference cannot be locked and every operation degrades to false or does
    nothing. Destructors are the explicit `Release` methods. */
module Connections {
  import opened Slots

  /** Whether a weak reference to `s` can be locked. */
  predicate Locks(s: Slot?)
    reads s
  {
    s != null && s.alive
  }

  /** The slot a weak reference points to, as a frame. */
  function Held(s: Slot?): set<Slot>
  {
    if s == null then {} else {s}
  }

  /** `connection`. */
  class Connection {
    var slot: Slot?

    /** `connection()`: refers to nothing. */
    constructor Empty()
      ensures slot == null
    {
      slot := null;
    }

    /** `connection(slot)`, as the signal creates it. */
    constructor (s: Slot)
      ensures slot == s
    {
      slot := s;
    }

    /** `valid()`: the slot has not expired. What that means for a connection
        is stated where a signal connects, disconnects and releases slots. */
    predicate IsValid()
      reads this, slot
    {
      Locks(slot)
    }

    /** `connected()`: false once the slot expired. */
    function Connected(): (r: bool)
      reads this, slot
      ensures r ==> IsValid()
      ensures IsValid() ==> r == slot.connected
    {
      Locks(slot) && slot.connected
    }

    /** `blocked()`: false once the slot expired. */
    function Blocked(): (r: bool)
      reads this, slot
      ensures r ==> IsValid()
      ensures IsValid() ==> r == slot.blocked
    {
      Locks(slot) && slot.blocked
    }

    /** `disconnect()`: true only for the call that disconnects a live slot. */
    method Disconnect() returns (r: bool)
      modifies Held(slot)`connected, Held(slot)`hookRuns
      ensures !old(IsValid()) ==> !r && (slot != null ==> unchanged(slot))
      ensures old(IsValid()) ==> r == old(slot.connected) && !slot.connected
      ensures slot != null ==> slot.hookRuns == old(slot.hookRuns) + (if r then 1 else 0)
    {
      r := false;
      if Locks(slot) {
        r := slot.Disconnect();
      }
    }

    /** `block()`: blocks a live slot, otherwise does nothing. */
    method Block()
      modifies Held(slot)`blocked
      ensures !old(IsValid()) ==> slot != null ==> unchanged(slot)
      ensures old(IsValid()) ==> slot.blocked
    {
      if Locks(slot) {
        slot.Block();
      }
    }

    /** `unblock()`: unblocks a live slot, otherwise does nothing. */
    method Unblock()
      modifies Held(slot)`blocked
      ensures !old(IsValid()) ==> slot != null ==> unchanged(slot)
      ensures old(IsValid()) ==> !slot.blocked
    {
      if Locks(slot) {
        slot.Unblock();
      }
    }

    /** `blocker()`: a blocker on the same slot, which blocks it if it is live. */
    method Blocker() returns (b: ConnectionBlocker)
      modifies Held(slot)`blocked
      ensures fresh(b) && b.slot == slot
      ensures !old(IsValid()) ==> slot != null ==> unchanged(slot)
      ensures old(IsValid()) ==> slot.blocked
    {
      b := new ConnectionBlocker(slot);
    }
  }

  /** `connection_blocker`: blocks its slot while it exists. */
  class ConnectionBlocker {
    var slot: Slot?

    /** `connection_blocker()`: refers to nothing. */
    constructor Empty()
      ensures slot == null
    {
      slot := null;
    }

    /** `connection_blocker(slot)`: blocks the slot if it is live. */
    constructor (s: Slot?)
      modifies Held(s)`blocked
      ensures slot == s
      ensures !old(Locks(s)) ==> s != null ==> unchanged(s)
      ensures old(Locks(s)) ==> s.blocked
    {
      slot := s;
      new;
      if Locks(s) {
        s.Block();
      }
    }

    /** The move constructor: takes over `other`'s slot and leaves `other` empty. */
    constructor Move(other: ConnectionBlocker)
      modifies other
      ensures slot == old(other.slot) && other.slot == null
    {
      slot := other.slot;
      new;
      other.slot := null;
    }

    /** `release()`, which the destructor runs: unblocks the slot if it is live. */
    method Release()
      modifies Held(slot)`blocked
      ensures !old(Locks(slot)) ==> slot != null ==> unchanged(slot)
      ensures old(Locks(slot)) ==> !slot.blocked
    {
      if Locks(slot) {
        slot.Unblock();
      }
    }

    /** Move assignment: release the current slot, then take over `other`'s. */
    method MoveAssign(other: ConnectionBlocker)
      modifies this, Held(slot)`blocked, other
      ensures other != this ==> slot == old(other.slot)
      ensures other.slot == null
      ensures old(Locks(slot)) ==> !old(slot).blocked
      ensures old(slot) != null && !old(Locks(slot)) ==> unchanged(old(slot))
    {
      Release();
      slot := other.slot;
      other.slot := null;
    }
  }

  /** `scoped_connection`: a connection that disconnects its slot when it is
      destroyed or overwritten. */
  class ScopedConnection {
    const base: Connection

    /** `scoped_connection(const connection&)`: refers to the same slot. */
    constructor (c: Connection)
      ensures fresh(base) && base.slot == c.slot
    {
      base := new Connection.Empty();
      new;
      base.slot := c.slot;
    }

    /** The move constructor: takes over `other`'s slot and leaves it empty. */
    constructor Move(other: ScopedConnection)
      modifies other.base
      ensures fresh(base) && base.slot == old(other.base.slot) && other.base.slot == null
    {
      var s := other.base.slot;
      base := new Connection.Empty();
      new;
      base.slot := s;
      other.base.slot := null;
    }

    /** The destructor: disconnects a live slot. */
    method Release()
      modifies Held(base.slot)`connected, Held(base.slot)`hookRuns
      ensures old(base.IsValid()) ==> !base.slot.connected
      ensures base.slot != null && !old(base.IsValid()) ==> unchanged(base.slot)
      ensures base.slot != null ==> base.slot.hookRuns == old(base.slot.hookRuns) + (if old(base.Connected()) then 1 else 0)
    {
      var _ := base.Disconnect();
    }

    /** Move assignment: disconnect the current slot, then take over `other`'s. */
    method MoveAssign(other: ScopedConnection)
      modifies base, Held(base.slot)`connected, Held(base.slot)`hookRuns, other.base
      ensures old(base.IsValid()) ==> !old(base.slot).connected
      ensures old(base.slot) != null ==>
        old(base.slot).hookRuns == old(base.slot.hookRuns) + (if old(base.Connected()) then 1 else 0)
      ensures other.base != base ==> base.slot == old(other.base.slot)
      ensures other.base.slot == null
    {
      var _ := base.Disconnect();
      base.slot := other.base.slot;
      other.base.slot := null;
    }
  }
}

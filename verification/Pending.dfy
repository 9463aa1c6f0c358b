/** The waiter record of internal/transaction/manager.go: its value, the three
    operations that run under its own lock, and the class that updates it in place. */
module Pendings {
  import opened Wrappers

  /** A decoded reply. `handle` is the identity of the pooled envelope object. */
  datatype Envelope = Envelope(handle: nat, txid: nat, messageId: nat, payload: seq<nat>)

  datatype Failure = Canceled | DeadlineExceeded | ManagerClosed | LogicError(code: nat)

  /** What travels over a waiter's channel: a reply or an error, never both. */
  datatype Outcome = Reply(env: Envelope) | Failed(err: Failure)

  /** A waiter. `ch` is the one-slot channel. */
  datatype PendingState = PendingState(id: nat, done: bool, waiting: bool, ch: Option<Outcome>)

  /** A channel send would block exactly when the slot is taken. */
  predicate CanDeliver(p: PendingState) {
    p.done || p.ch.None?
  }

  /** tryDeliver: the first delivery fills the slot, later ones change nothing. */
  function Deliver(p: PendingState, r: Outcome): PendingState
    requires CanDeliver(p)
  {
    if p.done then p else p.(done := true, ch := Some(r))
  }

  /** The flags and slot a pending has after acquirePending or after the reset in releasePending. */
  function Cleared(id: nat): PendingState {
    PendingState(id, false, false, None)
  }

  class Pending {
    var id: nat
    var done: bool
    var waiting: bool
    var ch: Option<Outcome>

    ghost function View(): PendingState
      reads this
    {
      PendingState(id, done, waiting, ch)
    }

    constructor ()
      ensures View() == Cleared(0)
    {
      id, done, waiting, ch := 0, false, false, None;
    }

    /** acquirePending on an object taken from the pool: whatever it held is gone. */
    method Acquire(newId: nat)
      modifies this
      ensures View() == Cleared(newId)
    {
      id := newId;
      done := false;
      waiting := false;
      ch := None;
    }

    /** claimWait: true for one caller only. */
    method ClaimWait() returns (ok: bool)
      modifies this
      ensures ok == !old(waiting)
      ensures View() == old(View()).(waiting := true)
    {
      if waiting {
        return false;
      }
      waiting := true;
      return true;
    }

    /** tryDeliver; the requires says the channel send cannot block. */
    method TryDeliver(r: Outcome) returns (ok: bool)
      requires CanDeliver(View())
      modifies this
      ensures ok == !old(done)
      ensures View() == Deliver(old(View()), r)
    {
      if done {
        return false;
      }
      done := true;
      ch := Some(r);
      return true;
    }

    /** The receive in Wait. */
    method Receive() returns (r: Outcome)
      requires ch.Some?
      modifies this`ch
      ensures r == old(ch).value && View() == old(View()).(ch := None)
    {
      r := ch.value;
      ch := None;
    }

    /** releasePending starts with a receive that does not block and does not lock. */
    method Drain()
      modifies this`ch
      ensures View() == old(View()).(ch := None)
    {
      ch := None;
    }

    /** The locked part of releasePending. */
    method Reset()
      modifies this
      ensures View() == Cleared(0).(ch := old(ch))
    {
      id := 0;
      done := false;
      waiting := false;
    }
  }
}

/**
 * The handler's three inboxes are `Queue(maxsize=1)` objects that are only
 * ever written after an `empty()` test, so each behaves as a slot holding at
 * most one pending text.
 */
module Mailbox {

  datatype Option<+T> = None | Some(value: T)

  /**
   * A guarded non-blocking put: an empty slot takes the value, a full slot
   * keeps what it holds and the offered value is dropped.
   */
  function Offer<T>(slot: Option<T>, v: T): Option<T> {
    if slot.None? then Some(v) else slot
  }
}

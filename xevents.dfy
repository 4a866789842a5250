/**
 * The part of the X client libraries that event compression works against:
 * property-change events, the client's queue of pending events and its
 * notion of the last server time.  Only the behaviour the clipboard code
 * relies on is modelled; the connection itself is not.
 */
module XEvents {

  /** An X atom or window identifier (a 32-bit resource id on the wire); opaque here. */
  type Id = nat

  /** An X server timestamp, in milliseconds. */
  type Timestamp = nat

  /** A PropertyNotify event: a property `atom` of `window` changed at `time`; `state` is the protocol's state byte. */
  datatype PropertyNotifyEvent = PropertyNotifyEvent(window: Id, atom: Id, time: Timestamp, state: nat)

  /** The event held in a queue slot: none (when only an error was read), a PropertyNotify, or any other event, told apart by its code. */
  datatype Event = NoEvent | PropertyNotify(notify: PropertyNotifyEvent) | OtherEvent(code: nat)

  /** One slot of the pending-event queue: an event, or an error read in its place. */
  datatype EventOrError = EventOrError(event: Event, failed: bool)

  /** The client state that compression reads and changes: the pending queue and the last server time seen. */
  class XUtil {
    var queue: seq<EventOrError>
    var time: Timestamp

    constructor (pending: seq<EventOrError>, t: Timestamp)
      ensures queue == pending && time == t
    {
      queue := pending;
      time := t;
    }

    /** A snapshot of the pending queue; later dequeues do not change it. */
    method Peek() returns (q: seq<EventOrError>)
      ensures q == queue
    {
      q := queue;
    }

    /** Removes the slot at index `i`; the slots after it move one place to the left. */
    method DequeueAt(i: nat)
      requires i < |queue|
      modifies this`queue
      ensures queue == old(queue[..i] + queue[i + 1..])
      ensures |queue| == old(|queue|) - 1
      ensures forall j :: 0 <= j < i ==> queue[j] == old(queue[j])
      ensures forall j :: i <= j < |queue| ==> queue[j] == old(queue[j + 1])
    {
      queue := queue[..i] + queue[i + 1..];
    }

    /** Sets the client's sense of the current server time. */
    method TimeSet(t: Timestamp)
      modifies this`time
      ensures time == t
    {
      time := t;
    }
  }
}

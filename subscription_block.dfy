/** src/services/subscriptionBlock.ts: a module-level `expired` flag and two
    single-slot listeners. A listener is a function value in the source; here
    it is an identity, and every invocation is recorded in `calls`. */
module SubscriptionBlock {
  import opened Wrappers

  /** The identity of a registered callback. */
  type Listener = nat

  datatype Call = ExpiredCalled(listener: Listener) | RestoredCalled(listener: Listener)

  class Notifier {
    var expired: bool
    var listenerExpired: Option<Listener>
    var listenerRestored: Option<Listener>
    /** The listener invocations so far, oldest first. */
    ghost var calls: seq<Call>

    /** The module's state when it is first loaded. */
    constructor ()
      ensures !expired && listenerExpired == None && listenerRestored == None && calls == []
    {
      expired := false;
      listenerExpired := None;
      listenerRestored := None;
      calls := [];
    }

    /** `setSubscriptionExpiredListener(fn)`: replaces the slot and fires the
        new listener at once, exactly once, when the flag is already set. */
    method SetExpiredListener(fn: Listener)
      modifies this
      ensures listenerExpired == Some(fn)
      ensures expired == old(expired) && listenerRestored == old(listenerRestored)
      ensures calls == old(calls) + (if expired then [ExpiredCalled(fn)] else [])
    {
      listenerExpired := Some(fn);
      if expired {
        calls := calls + [ExpiredCalled(fn)];
      }
    }

    /** `setSubscriptionRestoredListener(fn)`: replaces the slot, fires nothing. */
    method SetRestoredListener(fn: Listener)
      modifies this
      ensures listenerRestored == Some(fn)
      ensures expired == old(expired) && listenerExpired == old(listenerExpired)
      ensures calls == old(calls)
    {
      listenerRestored := Some(fn);
    }

    /** `notifySubscriptionExpired`: sets the flag and calls the registered
        expired listener, if any, once. */
    method NotifyExpired()
      modifies this
      ensures expired
      ensures listenerExpired == old(listenerExpired) && listenerRestored == old(listenerRestored)
      ensures calls == old(calls) + (match listenerExpired
                                     case Some(l) => [ExpiredCalled(l)]
                                     case None => [])
    {
      expired := true;
      if listenerExpired.Some? {
        calls := calls + [ExpiredCalled(listenerExpired.value)];
      }
    }

    /** `notifySubscriptionRestored`: clears the flag and calls the registered
        restored listener, if any, once. */
    method NotifyRestored()
      modifies this
      ensures !expired
      ensures listenerExpired == old(listenerExpired) && listenerRestored == old(listenerRestored)
      ensures calls == old(calls) + (match listenerRestored
                                     case Some(l) => [RestoredCalled(l)]
                                     case None => [])
    {
      expired := false;
      if listenerRestored.Some? {
        calls := calls + [RestoredCalled(listenerRestored.value)];
      }
    }

    /** `resetSubscriptionExpired`: clears the flag and calls nobody. */
    method ResetExpired()
      modifies this
      ensures !expired
      ensures listenerExpired == old(listenerExpired) && listenerRestored == old(listenerRestored)
      ensures calls == old(calls)
    {
      expired := false;
    }
  }
}

/** The stateful part of src/screens/OrdersScreen.tsx: the seen-id set, the
    in-flight guard of `load`, the single polling-timer slot and the alert
    raised by `detectNewOrders`. The await in `load` splits it in two: a
    `Begin…` method runs up to the await and an `End…` method receives what
    the awaited call produced. JavaScript runs one callback at a time, so the
    two halves of different operations interleave only between methods.
    `setStatus` is one method that takes the outcome of its request as a
    parameter, because nothing it does before that await can be observed. */
module OrdersScreen {
  import opened Wrappers
  import opened Orders
  import opened Arrivals
  import opened OrderList

  class OrderWatcher {
    /** `seenOrderIdsRef`: every order id the screen has fetched. */
    var seen: set<string>
    /** `isFetchingRef`. */
    var inFlight: bool
    /** The `silent` argument of the `load` call that is in flight. */
    var inFlightSilent: bool
    /** `intervalRef.current !== null`. */
    var timerActive: bool
    /** Intervals created and not yet cleared. */
    ghost var liveTimers: nat
    /** Calls of `playNewOrderAlert`. */
    ghost var alerts: nat
    /** Error messages shown with `Alert.alert`. */
    ghost var errorsShown: nat
    /** Every id any successful fetch returned. */
    ghost var fetchedIds: set<string>
    /** The status-change requests sent. */
    ghost var requests: seq<Request>

    var orders: seq<Order>
    var loading: bool
    var autoRefresh: bool
    var filter: Filter

    /** The slot holds the only live timer, and every fetched id has been seen. */
    ghost predicate Valid()
      reads this
    {
      liveTimers == (if timerActive then 1 else 0) && fetchedIds <= seen
    }

    /** The state of a freshly mounted screen. */
    constructor ()
      ensures Valid()
      ensures seen == {} && !inFlight && !timerActive && orders == []
      ensures loading && autoRefresh && filter == All
      ensures alerts == 0 && errorsShown == 0 && requests == []
    {
      seen := {};
      inFlight := false;
      inFlightSilent := false;
      timerActive := false;
      liveTimers := 0;
      alerts := 0;
      errorsShown := 0;
      fetchedIds := {};
      requests := [];
      orders := [];
      loading := true;
      autoRefresh := true;
      filter := All;
    }

    /** `stopPolling`: clears the interval if there is one; harmless otherwise. */
    method StopPolling()
      requires Valid()
      modifies this`timerActive, this`liveTimers
      ensures Valid() && !timerActive && liveTimers == 0
    {
      if timerActive {
        liveTimers := liveTimers - 1;
        timerActive := false;
      }
    }

    /** `startPolling`: creates an interval only when the slot is empty, so
        there is never more than one. */
    method StartPolling() returns (created: bool)
      requires Valid()
      modifies this`timerActive, this`liveTimers
      ensures Valid() && timerActive && liveTimers == 1
      ensures created == !old(timerActive)
    {
      if timerActive {
        return false;
      }
      liveTimers := liveTimers + 1;
      timerActive := true;
      created := true;
    }

    /** `detectNewOrders`: records every fetched id and raises one alert when
        some order whose id was not seen before is NEW. */
    method DetectNewOrders(next: seq<Order>) returns (alerted: bool)
      modifies this`seen, this`alerts
      ensures seen == old(seen) + IdsOf(next)
      ensures alerted == HasNewArrival(old(seen), next)
      ensures alerts == old(alerts) + (if alerted then 1 else 0)
    {
      var prior := seen;
      var newOnes := Unseen(prior, next);
      var i := 0;
      while i < |newOnes|
        invariant 0 <= i <= |newOnes|
        invariant seen == prior + IdsOf(newOnes[..i])
        invariant alerts == old(alerts)
      {
        IdsOfSnoc(newOnes[..i], newOnes[i]);
        assert newOnes[..i + 1] == newOnes[..i] + [newOnes[i]];
        seen := seen + {newOnes[i].id};
        i := i + 1;
      }
      assert newOnes[..i] == newOnes;
      UnseenIds(prior, next);
      UnseenAnyNew(prior, next);
      alerted := AnyNew(newOnes);
      if alerted {
        alerts := alerts + 1;
      }
    }

    /** The part of `load(silent)` before `await listOrders()`: it returns at
        once when a fetch is already in flight, and otherwise raises the flag. */
    method BeginLoad(silent: bool) returns (started: bool)
      requires Valid()
      modifies this`inFlight, this`inFlightSilent, this`loading
      ensures Valid() && inFlight
      ensures started == !old(inFlight)
      ensures started ==> inFlightSilent == silent && loading == (old(loading) || !silent)
      ensures !started ==> inFlightSilent == old(inFlightSilent) && loading == old(loading)
    {
      if inFlight {
        return false;
      }
      inFlight := true;
      inFlightSilent := silent;
      if !silent {
        loading := true;
      }
      started := true;
    }

    /** The rest of `load` once the fetch settles. On success the new ids are
        detected and the list replaced; on failure the seen set, the list and
        the alerts stay as they were, and a message is shown unless the answer
        was 402. Either way (`finally`) the flag is cleared. */
    method EndLoad(fetched: Result<OrdersPayload>)
      requires Valid() && inFlight
      modifies this`seen, this`alerts, this`fetchedIds, this`orders, this`errorsShown, this`loading, this`inFlight
      ensures Valid() && !inFlight
      ensures loading == (if old(inFlightSilent) then old(loading) else false)
      ensures fetched.Ok? ==>
        var data := ListOrders(fetched.value);
        && seen == old(seen) + IdsOf(data)
        && orders == data
        && alerts == old(alerts) + (if HasNewArrival(old(seen), data) then 1 else 0)
        && errorsShown == old(errorsShown)
        && fetchedIds == old(fetchedIds) + IdsOf(data)
      ensures fetched.Err? ==>
        && seen == old(seen) && orders == old(orders) && alerts == old(alerts)
        && fetchedIds == old(fetchedIds)
        && errorsShown == old(errorsShown) + (if IsPaymentRequired(fetched) then 0 else 1)
      ensures timerActive == old(timerActive) && liveTimers == old(liveTimers)
      ensures autoRefresh == old(autoRefresh) && filter == old(filter) && requests == old(requests)
    {
      match fetched {
        case Ok(payload) =>
          var data := ListOrders(payload);
          var _ := DetectNewOrders(data);
          fetchedIds := fetchedIds + IdsOf(data);
          orders := data;
        case Err(_) =>
          if !IsPaymentRequired(fetched) {
            errorsShown := errorsShown + 1;
          }
      }
      if !inFlightSilent {
        loading := false;
      }
      inFlight := false;
    }

    /** The interval callback: `load(true)`. A silent load never touches the
        spinner, and a call that finds a fetch in flight changes nothing. */
    method Tick() returns (started: bool)
      requires Valid() && timerActive
      modifies this`inFlight, this`inFlightSilent, this`loading
      ensures Valid() && inFlight && started == !old(inFlight)
      ensures loading == old(loading)
      ensures started ==> inFlightSilent
      ensures !started ==> inFlightSilent == old(inFlightSilent)
    {
      started := BeginLoad(true);
    }

    /** The focus effect: a silent reload, then polling when auto-refresh is on. */
    method OnFocus() returns (started: bool)
      requires Valid()
      modifies this`inFlight, this`inFlightSilent, this`loading, this`timerActive, this`liveTimers
      ensures Valid() && inFlight && started == !old(inFlight)
      ensures loading == old(loading)
      ensures started ==> inFlightSilent
      ensures !started ==> inFlightSilent == old(inFlightSilent)
      ensures timerActive == (old(timerActive) || autoRefresh)
    {
      started := BeginLoad(true);
      if autoRefresh {
        var _ := StartPolling();
      }
    }

    /** The focus effect's cleanup, also run on unmount. */
    method OnBlur()
      requires Valid()
      modifies this`timerActive, this`liveTimers
      ensures Valid() && !timerActive && liveTimers == 0
    {
      StopPolling();
    }

    /** The AppState listener: a silent reload when the app becomes active. */
    method OnAppActive() returns (started: bool)
      requires Valid()
      modifies this`inFlight, this`inFlightSilent, this`loading
      ensures Valid() && inFlight && started == !old(inFlight)
      ensures loading == old(loading)
      ensures started ==> inFlightSilent
      ensures !started ==> inFlightSilent == old(inFlightSilent)
    {
      started := BeginLoad(true);
    }

    /** The auto-refresh switch while the screen has focus: the focus effect
        depends on it, so its cleanup runs and then the effect again. */
    method ToggleAutoRefresh() returns (started: bool)
      requires Valid()
      modifies this`autoRefresh, this`inFlight, this`inFlightSilent, this`loading, this`timerActive, this`liveTimers
      ensures Valid() && autoRefresh == !old(autoRefresh)
      ensures timerActive == autoRefresh
      ensures inFlight && started == !old(inFlight)
      ensures loading == old(loading)
      ensures started ==> inFlightSilent
      ensures !started ==> inFlightSilent == old(inFlightSilent)
    {
      autoRefresh := !autoRefresh;
      StopPolling();
      started := OnFocus();
    }

    /** `setStatus`: the PATCH request is sent; when it succeeds a silent
        reload follows, and when it fails a message is shown unless the
        answer was 402. */
    method SetStatus(orderId: string, status: OrderStatus, updated: Result<Order>)
      returns (started: bool)
      requires Valid()
      modifies this`requests, this`errorsShown, this`inFlight, this`inFlightSilent, this`loading
      ensures Valid()
      ensures requests == old(requests) + [UpdateOrderStatus(orderId, status)]
      ensures updated.Ok? ==> inFlight && started == !old(inFlight) && errorsShown == old(errorsShown)
      ensures updated.Err? ==>
        && !started && inFlight == old(inFlight)
        && errorsShown == old(errorsShown) + (if IsPaymentRequired(updated) then 0 else 1)
      ensures loading == old(loading)
      ensures started ==> inFlightSilent
      ensures !started ==> inFlightSilent == old(inFlightSilent)
    {
      requests := requests + [UpdateOrderStatus(orderId, status)];
      if updated.Err? {
        if !IsPaymentRequired(updated) {
          errorsShown := errorsShown + 1;
        }
        return false;
      }
      started := BeginLoad(true);
    }

    /** A filter chip. */
    method SetFilter(f: Filter)
      requires Valid()
      modifies this`filter
      ensures filter == f && Valid()
    {
      filter := f;
    }
  }
}

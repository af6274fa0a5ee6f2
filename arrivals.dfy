/** The arrival rule shared by the two order watchers (OrdersScreen's
    `detectNewOrders` and HomeScreen's `loadNewOrdersCount`): which fetched
    orders are new with respect to the seen-id set, and whether they warrant
    an alert. */
module Arrivals {
  import opened Orders
  import OrderList

  /** The ids of a list of orders. */
  function IdsOf(xs: seq<Order>): set<string> {
    if xs == [] then {} else IdsOf(xs[..|xs| - 1]) + {xs[|xs| - 1].id}
  }

  /** An id is in `IdsOf(xs)` exactly when some order of `xs` has it. */
  lemma {:induction false} IdsOfMembers(xs: seq<Order>)
    ensures forall k :: 0 <= k < |xs| ==> xs[k].id in IdsOf(xs)
    ensures forall id :: id in IdsOf(xs) ==> exists k :: 0 <= k < |xs| && xs[k].id == id
  {
    if xs != [] {
      var init := xs[..|xs| - 1];
      IdsOfMembers(init);
      forall id | id in IdsOf(xs) ensures exists k :: 0 <= k < |xs| && xs[k].id == id {
        if id in IdsOf(init) {
          var k :| 0 <= k < |init| && init[k].id == id;
          assert xs[k] == init[k];
        } else {
          assert xs[|xs| - 1].id == id;
        }
      }
      forall k | 0 <= k < |xs| ensures xs[k].id in IdsOf(xs) {
        if k < |init| {
          assert xs[k] == init[k];
        }
      }
    }
  }

  lemma IdsOfSnoc(xs: seq<Order>, x: Order)
    ensures IdsOf(xs + [x]) == IdsOf(xs) + {x.id}
  {
    assert (xs + [x])[..|xs|] == xs;
  }

  /** `nextOrders.filter(o => !seen.has(o.id))`: the fetched orders whose id
      was not seen before, in fetch order. */
  function Unseen(seen: set<string>, xs: seq<Order>): (r: seq<Order>)
    ensures |r| <= |xs|
    ensures forall k :: 0 <= k < |r| ==> r[k].id !in seen
  {
    if xs == [] then []
    else if xs[|xs| - 1].id !in seen then Unseen(seen, xs[..|xs| - 1]) + [xs[|xs| - 1]]
    else Unseen(seen, xs[..|xs| - 1])
  }

  /** The unseen orders are exactly the fetched orders whose id is not in the set. */
  lemma {:induction false} UnseenMembers(seen: set<string>, xs: seq<Order>)
    ensures forall o :: o in Unseen(seen, xs) <==> o in xs && o.id !in seen
  {
    if xs != [] {
      var init := xs[..|xs| - 1];
      UnseenMembers(seen, init);
      assert xs == init + [xs[|xs| - 1]];
    }
  }

  /** `newOnes.some(o => o.status === "NEW")`. */
  function AnyNew(xs: seq<Order>): bool {
    if xs == [] then false else xs[|xs| - 1].status == New || AnyNew(xs[..|xs| - 1])
  }

  /** `AnyNew` holds exactly when some order of the list is NEW. */
  lemma {:induction false} AnyNewMeans(xs: seq<Order>)
    ensures AnyNew(xs) <==> exists k :: 0 <= k < |xs| && xs[k].status == New
  {
    if xs != [] {
      var init := xs[..|xs| - 1];
      AnyNewMeans(init);
      if AnyNew(init) {
        var k :| 0 <= k < |init| && init[k].status == New;
        assert xs[k] == init[k];
      }
      if exists k :: 0 <= k < |xs| && xs[k].status == New {
        var k :| 0 <= k < |xs| && xs[k].status == New;
        if k < |init| {
          assert init[k] == xs[k];
        }
      }
    }
  }

  /** The alert condition: some fetched order whose id was not seen before is NEW. */
  predicate HasNewArrival(seen: set<string>, xs: seq<Order>) {
    exists k :: 0 <= k < |xs| && IsNewArrival(seen, xs[k])
  }

  predicate IsNewArrival(seen: set<string>, o: Order) {
    o.id !in seen && o.status == New
  }

  lemma HasNewArrivalSnoc(seen: set<string>, xs: seq<Order>)
    requires xs != []
    ensures HasNewArrival(seen, xs) <==>
      HasNewArrival(seen, xs[..|xs| - 1]) || IsNewArrival(seen, xs[|xs| - 1])
  {
    var init := xs[..|xs| - 1];
    if HasNewArrival(seen, xs) && !IsNewArrival(seen, xs[|xs| - 1]) {
      var k :| 0 <= k < |xs| && IsNewArrival(seen, xs[k]);
      assert init[k] == xs[k];
    }
    if HasNewArrival(seen, init) {
      var k :| 0 <= k < |init| && IsNewArrival(seen, init[k]);
      assert xs[k] == init[k];
    }
  }

  /** `orders.filter(o => o.status === "NEW").length`. */
  function CountNew(xs: seq<Order>): (n: nat)
    ensures n <= |xs|
    ensures n == 0 <==> !AnyNew(xs)
  {
    if xs == [] then 0
    else CountNew(xs[..|xs| - 1]) + (if xs[|xs| - 1].status == New then 1 else 0)
  }

  /** The count is the length of the list the status filter keeps for `NEW`,
      as `orders.filter(o => o.status === "NEW").length` computes it. */
  lemma {:induction false} CountNewIsFilterLength(xs: seq<Order>)
    ensures CountNew(xs) == |OrderList.WithStatus(xs, New)|
  {
    if xs != [] {
      CountNewIsFilterLength(xs[..|xs| - 1]);
    }
  }

  /** Adding the ids of the unseen orders to the seen set gives the same set
      as adding every fetched id. */
  lemma {:induction false} UnseenIds(seen: set<string>, xs: seq<Order>)
    ensures seen + IdsOf(Unseen(seen, xs)) == seen + IdsOf(xs)
  {
    if xs != [] {
      var init, x := xs[..|xs| - 1], xs[|xs| - 1];
      UnseenIds(seen, init);
      var u := Unseen(seen, xs);
      if x.id !in seen {
        assert u[..|u| - 1] == Unseen(seen, init);
      }
    }
  }

  /** The unseen orders contain a NEW one exactly when the alert condition holds. */
  lemma {:induction false} UnseenAnyNew(seen: set<string>, xs: seq<Order>)
    ensures AnyNew(Unseen(seen, xs)) <==> HasNewArrival(seen, xs)
  {
    if xs != [] {
      var init, x := xs[..|xs| - 1], xs[|xs| - 1];
      UnseenAnyNew(seen, init);
      var u := Unseen(seen, xs);
      if x.id !in seen {
        assert u[..|u| - 1] == Unseen(seen, init);
      }
      HasNewArrivalSnoc(seen, xs);
    }
  }

  /** Ids already seen never trigger an alert, whatever status they now have. */
  lemma SeenNeverAlerts(seen: set<string>, xs: seq<Order>)
    requires IdsOf(xs) <= seen
    ensures !HasNewArrival(seen, xs)
  {
    IdsOfMembers(xs);
  }

  /** A refresh that returns only orders fetched before (with any status)
      raises no alert: the case of the reload after a status change. */
  lemma RefreshDoesNotRealert(seen: set<string>, before: seq<Order>, after: seq<Order>)
    requires forall k :: 0 <= k < |after| ==> exists j :: 0 <= j < |before| && before[j].id == after[k].id
    ensures !HasNewArrival(seen + IdsOf(before), after)
  {
    IdsOfMembers(before);
    forall k | 0 <= k < |after| ensures after[k].id in seen + IdsOf(before) {
      var j :| 0 <= j < |before| && before[j].id == after[k].id;
    }
  }

  /** The status change an order goes through in place, as after `setStatus`. */
  lemma StatusChangeDoesNotRealert(seen: set<string>, xs: seq<Order>, k: nat, s: OrderStatus)
    requires k < |xs|
    ensures !HasNewArrival(seen + IdsOf(xs), xs[k := xs[k].(status := s)])
  {
    var ys := xs[k := xs[k].(status := s)];
    forall i | 0 <= i < |ys| ensures exists j :: 0 <= j < |xs| && xs[j].id == ys[i].id {
      assert xs[i].id == ys[i].id;
    }
    RefreshDoesNotRealert(seen, xs, ys);
  }

  /** Seeing more never adds alerts. */
  lemma MoreSeenFewerAlerts(seen: set<string>, more: set<string>, xs: seq<Order>)
    requires seen <= more
    ensures HasNewArrival(more, xs) ==> HasNewArrival(seen, xs)
  {
  }

  /** With nothing seen yet, as on the first load of a freshly mounted
      screen, the alert is raised exactly when some fetched order is NEW. */
  lemma FirstLoadAlerts(xs: seq<Order>)
    ensures HasNewArrival({}, xs) <==> exists k :: 0 <= k < |xs| && xs[k].status == New
  {
    if exists k :: 0 <= k < |xs| && xs[k].status == New {
      var k :| 0 <= k < |xs| && xs[k].status == New;
      assert IsNewArrival({}, xs[k]);
    }
  }
}

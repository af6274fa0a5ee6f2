/** The pure presentation rules of src/screens/OrdersScreen.tsx: the status
    label, the display order, the status filter and the status changes the
    screen offers for each order. */
module OrderList {
  import opened Orders

  /** `statusLabel`: the Portuguese label shown for a state. */
  function StatusLabel(s: OrderStatus): string {
    match s
    case New => "Novo"
    case Preparing => "Preparando"
    case OutForDelivery => "Saiu"
    case Delivered => "Entregue"
    case Canceled => "Cancelado"
  }

  /** Different states never share a label. */
  lemma StatusLabelInjective(s: OrderStatus, t: OrderStatus)
    ensures StatusLabel(s) == StatusLabel(t) <==> s == t
  {
  }

  // ---------------------------------------------------------------- ordering

  /** `aScore`/`bScore`: NEW orders score 0, all others 1. */
  function Score(o: Order): int {
    if o.status == New then 0 else 1
  }

  /** The comparator handed to `sort`: negative when `a` goes first. */
  function Compare(a: Order, b: Order): int {
    if Score(a) != Score(b) then Score(a) - Score(b) else b.createdAt - a.createdAt
  }

  /** `a` may stand before `b`: a NEW order before any other, and among
      orders of the same group the more recent one first. */
  predicate Precedes(a: Order, b: Order) {
    (a.status == New && b.status != New)
    || ((a.status == New <==> b.status == New) && a.createdAt >= b.createdAt)
  }

  /** The comparator says "not after" exactly when `Precedes` holds, and it is
      a total preorder, so sorting by it is well defined. */
  lemma CompareMeansPrecedes(a: Order, b: Order, c: Order)
    ensures Compare(a, b) <= 0 <==> Precedes(a, b)
    ensures Precedes(a, b) || Precedes(b, a)
    ensures Precedes(a, b) && Precedes(b, c) ==> Precedes(a, c)
  {
  }

  predicate Sorted(xs: seq<Order>) {
    forall i, j :: 0 <= i < j < |xs| ==> Precedes(xs[i], xs[j])
  }

  /** Every NEW order stands before every other order. */
  predicate NewFirst(xs: seq<Order>) {
    forall i, j :: 0 <= i < j < |xs| && xs[j].status == New ==> xs[i].status == New
  }

  /** Within the NEW group and within the rest, the most recent order comes first. */
  predicate RecentFirstInGroup(xs: seq<Order>) {
    forall i, j :: 0 <= i < j < |xs| && (xs[i].status == New <==> xs[j].status == New)
      ==> xs[i].createdAt >= xs[j].createdAt
  }

  /** Being sorted by the comparator is exactly the two display rules together. */
  lemma SortedMeansGrouped(xs: seq<Order>)
    ensures Sorted(xs) <==> NewFirst(xs) && RecentFirstInGroup(xs)
  {
  }

  /** Puts `x` after every element of `xs` that may stand before it. */
  function Insert(x: Order, xs: seq<Order>): (r: seq<Order>)
    ensures multiset(r) == multiset(xs) + multiset{x}
  {
    if xs == [] then [x]
    else if Compare(xs[0], x) <= 0 then
      assert xs == [xs[0]] + xs[1..];
      [xs[0]] + Insert(x, xs[1..])
    else [x] + xs
  }

  lemma {:induction false} InsertSorted(x: Order, xs: seq<Order>)
    requires Sorted(xs)
    ensures Sorted(Insert(x, xs))
  {
    if xs != [] {
      var h := xs[0];
      var r := Insert(x, xs);
      CompareMeansPrecedes(h, x, x);
      if Compare(h, x) <= 0 {
        var rest := Insert(x, xs[1..]);
        assert Sorted(xs[1..]);
        InsertSorted(x, xs[1..]);
        assert xs == [h] + xs[1..];
        forall k | 0 <= k < |rest| ensures Precedes(h, rest[k]) {
          assert rest[k] in multiset(rest);
          if rest[k] != x {
            assert rest[k] in xs[1..];
          }
        }
      } else {
        forall k | 0 < k < |xs| ensures Precedes(x, xs[k]) {
          CompareMeansPrecedes(x, h, xs[k]);
        }
      }
    }
  }

  /** `sortedOrders`: a sorted copy of the list; the list itself is a value
      and is left as it was. The sort is stable, as `Array.prototype.sort` is. */
  function SortOrders(xs: seq<Order>): seq<Order>
  {
    if xs == [] then [] else Insert(xs[|xs| - 1], SortOrders(xs[..|xs| - 1]))
  }

  /** The sorted list holds the same orders, NEW ones first and each group
      from the most recent to the oldest. */
  lemma {:induction false} SortOrdersCorrect(xs: seq<Order>)
    ensures multiset(SortOrders(xs)) == multiset(xs)
    ensures Sorted(SortOrders(xs))
    ensures NewFirst(SortOrders(xs)) && RecentFirstInGroup(SortOrders(xs))
  {
    if xs != [] {
      var init := xs[..|xs| - 1];
      SortOrdersCorrect(init);
      InsertSorted(xs[|xs| - 1], SortOrders(init));
      assert xs == init + [xs[|xs| - 1]];
    }
    SortedMeansGrouped(SortOrders(xs));
  }

  // ---------------------------------------------------------------- filter

  /** The chips above the list: every order, or those of one state. */
  datatype Filter = All | Only(status: OrderStatus)

  /** `sortedOrders.filter(o => o.status === filter)`. */
  function WithStatus(xs: seq<Order>, s: OrderStatus): (r: seq<Order>)
    ensures |r| <= |xs|
    ensures forall k :: 0 <= k < |r| ==> r[k].status == s
  {
    if xs == [] then []
    else if xs[|xs| - 1].status == s then WithStatus(xs[..|xs| - 1], s) + [xs[|xs| - 1]]
    else WithStatus(xs[..|xs| - 1], s)
  }

  /** `filteredOrders`. */
  function FilteredOrders(sorted: seq<Order>, f: Filter): seq<Order> {
    match f
    case All => sorted
    case Only(s) => WithStatus(sorted, s)
  }

  /** Filtering keeps the order: the selection from a concatenation is the
      concatenation of the selections. */
  lemma {:induction false} WithStatusAppend(xs: seq<Order>, ys: seq<Order>, s: OrderStatus)
    ensures WithStatus(xs + ys, s) == WithStatus(xs, s) + WithStatus(ys, s)
    decreases |ys|
  {
    if ys == [] {
      assert xs + ys == xs;
    } else {
      var ys' := ys[..|ys| - 1];
      assert (xs + ys)[..|xs + ys| - 1] == xs + ys';
      WithStatusAppend(xs, ys', s);
    }
  }

  /** With a state chosen, the list shown keeps every order of that state,
      as many times as it occurs, and no other. */
  lemma {:induction false} WithStatusSelects(xs: seq<Order>, s: OrderStatus)
    ensures forall o :: multiset(WithStatus(xs, s))[o] == if o.status == s then multiset(xs)[o] else 0
  {
    if xs != [] {
      var init := xs[..|xs| - 1];
      WithStatusSelects(init, s);
      assert xs == init + [xs[|xs| - 1]];
    }
  }

  /** "All" shows the sorted list itself. */
  lemma FilterAll(sorted: seq<Order>)
    ensures FilteredOrders(sorted, All) == sorted
  {
  }

  // ---------------------------------------------------------------- transitions

  /** The buttons rendered under an order: the states it can be moved to. */
  function OfferedTransitions(s: OrderStatus): (r: set<OrderStatus>)
    ensures New !in r
  {
    match s
    case New => {Preparing, Canceled}
    case Preparing => {OutForDelivery}
    case OutForDelivery => {Delivered}
    case Delivered => {}
    case Canceled => {}
  }

  /** How far along an order is; every offered change moves it strictly forward. */
  function Stage(s: OrderStatus): nat {
    match s
    case New => 0
    case Preparing => 1
    case OutForDelivery => 2
    case Delivered => 3
    case Canceled => 3
  }

  /** Only DELIVERED and CANCELED offer nothing, and every offer moves forward. */
  lemma TransitionsMoveForward(s: OrderStatus, t: OrderStatus)
    ensures t in OfferedTransitions(s) ==> Stage(t) > Stage(s)
    ensures OfferedTransitions(s) == {} <==> s == Delivered || s == Canceled
  {
  }

  /** A run of status changes each of which the screen offers. */
  predicate OfferedPath(p: seq<OrderStatus>) {
    forall k :: 0 < k < |p| ==> p[k] in OfferedTransitions(p[k - 1])
  }

  /** Following the buttons, an order passes through at most four states,
      never returns to NEW and never leaves DELIVERED or CANCELED. */
  lemma {:induction false} OfferedPathBounded(p: seq<OrderStatus>)
    requires |p| > 0 && OfferedPath(p)
    ensures Stage(p[|p| - 1]) >= Stage(p[0]) + |p| - 1
    ensures |p| <= 4
    ensures forall k :: 0 < k < |p| ==> p[k] != New
  {
    if |p| > 1 {
      var q := p[..|p| - 1];
      assert OfferedPath(q);
      OfferedPathBounded(q);
      TransitionsMoveForward(p[|p| - 2], p[|p| - 1]);
    }
  }
}

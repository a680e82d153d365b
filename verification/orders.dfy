/** The order sample's in-memory store
    (samples/OrderManagement/Services/OrderService.cs): a list of orders and
    a list of status-history entries. New identities (`Guid.NewGuid`) and
    the clock (`DateTime.Now`, as ticks) are parameters; prices are whole
    hundredths. */
module Orders {
  import opened Base

  type Guid = int

  datatype OrderItem = OrderItem(productId: Guid, productName: Option<string>, quantity: int, unitPrice: int)

  datatype Order = Order(
    id: Guid, orderNumber: Option<string>, createdAt: int, status: Option<string>,
    items: Option<seq<OrderItem>>, remark: Option<string>)

  datatype OrderStatusHistory = OrderStatusHistory(
    id: Guid, orderId: Guid, fromStatus: Option<string>, toStatus: Option<string>,
    changedAt: int, operator: Option<string>)

  /** Both lists, in insertion order. */
  datatype Ledger = Ledger(orders: seq<Order>, histories: seq<OrderStatusHistory>)

  /** The ledger after an operation, and what the operation returns. */
  datatype Change<T> = Change(after: Ledger, result: T)

  const TicksPerHour: int := 36_000_000_000
  const TicksPerDay: int := 24 * TicksPerHour
  const SystemOperator: string := "系统"
  const CreatedStatus: string := "Created"

  // ---------------------------------------------------------------------------
  // The invariant: each order's status is the target of its latest history entry.

  /** The target status of the last entry for `orderId`, if there is one. */
  function LastStatus(histories: seq<OrderStatusHistory>, orderId: Guid): Option<Option<string>> {
    if histories == [] then None
    else if histories[|histories| - 1].orderId == orderId then Some(histories[|histories| - 1].toStatus)
    else LastStatus(histories[..|histories| - 1], orderId)
  }

  predicate DistinctIds(a: Order, b: Order) {
    a.id != b.id
  }

  /** Order identities are distinct, and every order's status is where its
      history last moved it. */
  predicate Tracked(l: Ledger) {
    && Pairwise(l.orders, DistinctIds)
    && forall i :: 0 <= i < |l.orders| ==> LastStatus(l.histories, l.orders[i].id) == Some(l.orders[i].status)
  }

  /** An identity no order and no history entry uses yet. */
  predicate Unused(l: Ledger, id: Guid) {
    && (forall i :: 0 <= i < |l.orders| ==> l.orders[i].id != id)
    && (forall i :: 0 <= i < |l.histories| ==> l.histories[i].orderId != id)
  }

  /** Appending an entry for one order leaves every other order's last status. */
  lemma LastStatusAfterAppend(histories: seq<OrderStatusHistory>, e: OrderStatusHistory, orderId: Guid)
    ensures LastStatus(histories + [e], orderId)
         == if e.orderId == orderId then Some(e.toStatus) else LastStatus(histories, orderId)
  {
    assert (histories + [e])[..|histories + [e]| - 1] == histories;
  }

  lemma {:induction false} NoEntriesNoStatus(histories: seq<OrderStatusHistory>, orderId: Guid)
    requires forall i :: 0 <= i < |histories| ==> histories[i].orderId != orderId
    ensures LastStatus(histories, orderId) == None
  {
    if histories != [] {
      NoEntriesNoStatus(histories[..|histories| - 1], orderId);
    }
  }

  /** Orders rewritten without touching identities or statuses stay tracked. */
  lemma SameStatusesTracked(l: Ledger, orders: seq<Order>)
    requires Tracked(l) && |orders| == |l.orders|
    requires forall i :: 0 <= i < |orders| ==> orders[i].id == l.orders[i].id && orders[i].status == l.orders[i].status
    ensures Tracked(l.(orders := orders))
  {
    forall i, j | 0 <= i < j < |orders|
      ensures DistinctIds(orders[i], orders[j])
    {
      assert DistinctIds(l.orders[i], l.orders[j]);
    }
  }

  // ---------------------------------------------------------------------------
  // The sample data.

  function SampleLedger(ids: seq<Guid>, now: int): Ledger
    requires |ids| == 8
  {
    var order1 := Order(ids[0], Some("ORD20240423001"), now - 2 * TicksPerDay, Some(CreatedStatus),
      Some([OrderItem(ids[1], Some("商品A"), 2, 9990), OrderItem(ids[2], Some("商品B"), 1, 19900)]),
      Some("首单赠品已发放"));
    var order2 := Order(ids[3], Some("ORD20240423002"), now - TicksPerDay, Some("Paid"),
      Some([OrderItem(ids[4], Some("商品C"), 3, 5990)]), Some("等待发货"));
    Ledger([order1, order2], [
      OrderStatusHistory(ids[5], ids[0], None, Some(CreatedStatus), order1.createdAt, Some(SystemOperator)),
      OrderStatusHistory(ids[6], ids[3], None, Some(CreatedStatus), order2.createdAt, Some(SystemOperator)),
      OrderStatusHistory(ids[7], ids[3], Some(CreatedStatus), Some("Paid"), order2.createdAt + 2 * TicksPerHour, Some("用户A"))])
  }

  /** Two sample orders with distinct identities start out tracked. */
  lemma SampleTracked(ids: seq<Guid>, now: int)
    requires |ids| == 8 && ids[0] != ids[3]
    ensures Tracked(SampleLedger(ids, now))
  {
    var h := SampleLedger(ids, now).histories;
    LastStatusAfterAppend(h[..2], h[2], ids[0]);
    LastStatusAfterAppend(h[..1], h[1], ids[0]);
    LastStatusAfterAppend([], h[0], ids[0]);
    LastStatusAfterAppend(h[..2], h[2], ids[3]);
    assert h[..2] == h[..1] + [h[1]] && h[..1] == [] + [h[0]] && h == h[..2] + [h[2]];
  }

  // ---------------------------------------------------------------------------
  // Lookups and GetOrders.

  function OrderHasId(id: Guid): Order -> bool {
    (o: Order) => o.id == id
  }

  /** `GetOrderById`: the first order with that identity, or null. */
  function FindOrder(orders: seq<Order>, id: Guid): (r: Option<Order>)
    ensures r.Some? ==> r.value in orders && r.value.id == id
    ensures r.None? <==> forall j :: 0 <= j < |orders| ==> orders[j].id != id
  {
    match FirstWhere(orders, OrderHasId(id))
    case None => None
    case Some(i) => Some(orders[i])
  }

  function StatusIs(status: string): Order -> bool {
    (o: Order) => o.status == Some(status)
  }

  /** The orders `GetOrders` pages through: all of them, or those with the given status. */
  function WithStatus(orders: seq<Order>, status: Option<string>): seq<Order> {
    if IsNullOrEmpty(status) then orders else Filter(orders, StatusIs(status.value))
  }

  /** `GetOrders`: one page of the orders with the given status, the offset
      `pageIndex * pageSize` computed in 32-bit arithmetic. */
  function OrdersPage(orders: seq<Order>, pageIndex: int, pageSize: int, status: Option<string>): (r: seq<Order>)
    ensures |r| <= Clamp(pageSize, |WithStatus(orders, status)|)
  {
    Page(WithStatus(orders, status), Wrap32(pageIndex * pageSize), pageSize)
  }

  /** Every order on a page is stored and, when a status is given, has it. */
  lemma OrdersPageMatches(orders: seq<Order>, pageIndex: int, pageSize: int, status: Option<string>)
    ensures forall o :: o in OrdersPage(orders, pageIndex, pageSize, status) ==>
      o in orders && (!IsNullOrEmpty(status) ==> o.status == status)
  {
    var m := WithStatus(orders, status);
    if !IsNullOrEmpty(status) {
      FilterMembers(orders, StatusIs(status.value));
    }
    var page := OrdersPage(orders, pageIndex, pageSize, status);
    forall o | o in page
      ensures o in m
    {
      var j :| 0 <= j < |page| && page[j] == o;
    }
  }

  /** The 32-bit offset of page `k / size` is `(k / size) * size`. */
  lemma PageIndexOffset(k: nat, size: int)
    requires 0 < size && k <= Int32Max
    ensures Wrap32((k / size) * size) == (k / size) * size
  {
    var p := k / size;
    assert 0 <= p * size <= k by {
      assert p * size + k % size == k;
    }
  }

  /** With a page size of at least one, the `k`-th order with the status is
      item `k % pageSize` of page `k / pageSize`. */
  lemma OrdersPageCover(orders: seq<Order>, pageSize: int, status: Option<string>, k: nat)
    requires 0 < pageSize && k < |WithStatus(orders, status)| && k <= Int32Max
    ensures k % pageSize < |OrdersPage(orders, k / pageSize, pageSize, status)|
    ensures OrdersPage(orders, k / pageSize, pageSize, status)[k % pageSize] == WithStatus(orders, status)[k]
  {
    PageIndexOffset(k, pageSize);
    PageHolds(WithStatus(orders, status), pageSize, k);
  }

  // ---------------------------------------------------------------------------
  // GetOrderStatusHistory: the order's entries, stably sorted by time.

  function ForOrder(orderId: Guid): OrderStatusHistory -> bool {
    (h: OrderStatusHistory) => h.orderId == orderId
  }

  function AtTime(t: int): OrderStatusHistory -> bool {
    (h: OrderStatusHistory) => h.changedAt == t
  }

  predicate SortedByTime(s: seq<OrderStatusHistory>) {
    forall i, j :: 0 <= i < j < |s| ==> s[i].changedAt <= s[j].changedAt
  }

  /** Places `h` after every entry no later than it. */
  function Insert(s: seq<OrderStatusHistory>, h: OrderStatusHistory): (r: seq<OrderStatusHistory>)
    ensures multiset(r) == multiset(s) + multiset{h}
  {
    if s == [] || s[|s| - 1].changedAt <= h.changedAt then s + [h]
    else
      assert s == s[..|s| - 1] + [s[|s| - 1]];
      Insert(s[..|s| - 1], h) + [s[|s| - 1]]
  }

  /** `OrderBy(h => h.ChangedAt)`: a stable sort. */
  function SortByTime(xs: seq<OrderStatusHistory>): (r: seq<OrderStatusHistory>)
    ensures multiset(r) == multiset(xs)
  {
    if xs == [] then []
    else
      assert xs == xs[..|xs| - 1] + [xs[|xs| - 1]];
      Insert(SortByTime(xs[..|xs| - 1]), xs[|xs| - 1])
  }

  lemma {:induction false} InsertSorted(s: seq<OrderStatusHistory>, h: OrderStatusHistory)
    requires SortedByTime(s)
    ensures SortedByTime(Insert(s, h))
  {
    if s != [] && s[|s| - 1].changedAt > h.changedAt {
      var init, last := s[..|s| - 1], s[|s| - 1];
      InsertSorted(init, h);
      var r := Insert(init, h);
      forall i | 0 <= i < |r|
        ensures r[i].changedAt <= last.changedAt
      {
        assert r[i] in multiset(r);
        if r[i] != h {
          assert r[i] in multiset(init);
          var k :| 0 <= k < |init| && init[k] == r[i];
        }
      }
    }
  }

  /** Among entries at any one instant, insertion keeps the existing order
      and puts `h` last. */
  lemma {:induction false} InsertStable(s: seq<OrderStatusHistory>, h: OrderStatusHistory, t: int)
    requires SortedByTime(s)
    ensures Filter(Insert(s, h), AtTime(t)) == Filter(s, AtTime(t)) + Filter([h], AtTime(t))
  {
    if s == [] || s[|s| - 1].changedAt <= h.changedAt {
      FilterAppend(s, [h], AtTime(t));
    } else {
      var init, last := s[..|s| - 1], s[|s| - 1];
      InsertStable(init, h, t);
      FilterAppend(Insert(init, h), [last], AtTime(t));
      FilterAppend(init, [last], AtTime(t));
      assert s == init + [last];
      assert h.changedAt == t ==> Filter([last], AtTime(t)) == [];
    }
  }

  /** The sort orders by time, keeps every entry, and keeps the original
      order of entries stamped with the same instant. */
  lemma {:induction false} SortByTimeSpec(xs: seq<OrderStatusHistory>, t: int)
    ensures SortedByTime(SortByTime(xs))
    ensures Filter(SortByTime(xs), AtTime(t)) == Filter(xs, AtTime(t))
  {
    if xs != [] {
      var init, x := xs[..|xs| - 1], xs[|xs| - 1];
      SortByTimeSpec(init, t);
      InsertSorted(SortByTime(init), x);
      InsertStable(SortByTime(init), x, t);
      FilterAppend(init, [x], AtTime(t));
      assert xs == init + [x];
    }
  }

  /** `GetOrderStatusHistory`. */
  function HistoryOf(histories: seq<OrderStatusHistory>, orderId: Guid): seq<OrderStatusHistory> {
    SortByTime(Filter(histories, ForOrder(orderId)))
  }

  /** The history of an order holds exactly its entries, each as often as
      stored, ordered by time, with same-instant entries in the order they
      were recorded. */
  lemma HistoryOfSpec(histories: seq<OrderStatusHistory>, orderId: Guid, t: int)
    ensures SortedByTime(HistoryOf(histories, orderId))
    ensures multiset(HistoryOf(histories, orderId)) == multiset(Filter(histories, ForOrder(orderId)))
    ensures forall h :: h in HistoryOf(histories, orderId) <==> h in histories && h.orderId == orderId
    ensures Filter(HistoryOf(histories, orderId), AtTime(t)) == Filter(Filter(histories, ForOrder(orderId)), AtTime(t))
  {
    SortByTimeSpec(Filter(histories, ForOrder(orderId)), t);
    FilterMembers(histories, ForOrder(orderId));
    var r := HistoryOf(histories, orderId);
    forall h
      ensures h in r <==> h in multiset(Filter(histories, ForOrder(orderId)))
    {
      assert h in r <==> h in multiset(r);
    }
  }

  // ---------------------------------------------------------------------------
  // The updates.

  /** `CreateOrder`: the order gets a new identity, the current time and the
      status "Created", is appended, and one "null -> Created" entry is
      recorded for it. */
  function Create(l: Ledger, order: Order, newId: Guid, historyId: Guid, now: int): (c: Change<Order>)
    ensures c.result.id == newId && c.result.status == Some(CreatedStatus)
    ensures c.after.orders == l.orders + [c.result]
    ensures l.histories <= c.after.histories && |c.after.histories| == |l.histories| + 1
  {
    var created := order.(id := newId, createdAt := now, status := Some(CreatedStatus));
    Change(Ledger(l.orders + [created], l.histories + [
      OrderStatusHistory(historyId, newId, None, Some(CreatedStatus), now, Some(SystemOperator))]), created)
  }

  /** A new order created with an unused identity keeps the ledger tracked,
      and its history is the single creation entry. */
  lemma CreateKeepsTracked(l: Ledger, order: Order, newId: Guid, historyId: Guid, now: int)
    requires Tracked(l) && Unused(l, newId)
    ensures Tracked(Create(l, order, newId, historyId, now).after)
    ensures HistoryOf(Create(l, order, newId, historyId, now).after.histories, newId)
         == [OrderStatusHistory(historyId, newId, None, Some(CreatedStatus), now, Some(SystemOperator))]
  {
    var c := Create(l, order, newId, historyId, now);
    var e := c.after.histories[|l.histories|];
    assert c.after.histories == l.histories + [e];
    forall i | 0 <= i < |c.after.orders|
      ensures LastStatus(c.after.histories, c.after.orders[i].id) == Some(c.after.orders[i].status)
    {
      LastStatusAfterAppend(l.histories, e, c.after.orders[i].id);
    }
    forall i, j | 0 <= i < |l.orders| && 0 <= j < 1
      ensures DistinctIds(l.orders[i], [c.result][j])
    {
    }
    AppendKeepsPairwise(l.orders, [c.result], DistinctIds);
    FilterAppend(l.histories, [e], ForOrder(newId));
    FilterDropsAll(l.histories, ForOrder(newId));
  }

  /** `UpdateOrder`: false for an unknown identity; otherwise the first order
      with that identity takes the given number, items and remark. */
  function Update(l: Ledger, order: Order): (c: Change<bool>)
    ensures c.result <==> exists j :: 0 <= j < |l.orders| && l.orders[j].id == order.id
    ensures !c.result ==> c.after == l
    ensures c.after.histories == l.histories && |c.after.orders| == |l.orders|
  {
    match FirstWhere(l.orders, OrderHasId(order.id))
    case None => Change(l, false)
    case Some(i) =>
      var o := l.orders[i].(orderNumber := order.orderNumber, items := order.items, remark := order.remark);
      Change(l.(orders := l.orders[i := o]), true)
  }

  /** An update changes no identity, status or creation time, changes only
      the first order with that identity, and keeps the ledger tracked. */
  lemma UpdateKeepsStatus(l: Ledger, order: Order)
    requires Tracked(l)
    ensures var after := Update(l, order).after.orders;
      forall i :: 0 <= i < |after| ==>
        && after[i].id == l.orders[i].id && after[i].status == l.orders[i].status
        && after[i].createdAt == l.orders[i].createdAt
        && (after[i] != l.orders[i] ==> l.orders[i].id == order.id)
    ensures Tracked(Update(l, order).after)
  {
    SameStatusesTracked(l, Update(l, order).after.orders);
  }

  /** `AddRemark`: false for an unknown identity; otherwise only the remark
      of the first order with that identity changes. */
  function WithRemark(l: Ledger, id: Guid, remark: Option<string>): (c: Change<bool>)
    ensures c.result <==> exists j :: 0 <= j < |l.orders| && l.orders[j].id == id
    ensures !c.result ==> c.after == l
    ensures c.after.histories == l.histories && |c.after.orders| == |l.orders|
  {
    match FirstWhere(l.orders, OrderHasId(id))
    case None => Change(l, false)
    case Some(i) => Change(l.(orders := l.orders[i := l.orders[i].(remark := remark)]), true)
  }

  /** A remark changes no other field of any order, and keeps the ledger tracked. */
  lemma AddRemarkOnlyRemark(l: Ledger, id: Guid, remark: Option<string>)
    requires Tracked(l)
    ensures var after := WithRemark(l, id, remark).after.orders;
      forall i :: 0 <= i < |after| ==>
        && after[i].(remark := l.orders[i].remark) == l.orders[i]
        && (after[i] != l.orders[i] ==> l.orders[i].id == id && after[i].remark == remark)
    ensures Tracked(WithRemark(l, id, remark).after)
  {
    SameStatusesTracked(l, WithRemark(l, id, remark).after.orders);
  }

  /** `DeleteOrder`: removes the first order with that identity; its history
      entries stay. */
  function Delete(l: Ledger, id: Guid): (c: Change<bool>)
    ensures c.result <==> exists j :: 0 <= j < |l.orders| && l.orders[j].id == id
    ensures !c.result ==> c.after == l
    ensures c.after.histories == l.histories
    ensures c.result ==> |c.after.orders| == |l.orders| - 1
  {
    match FirstWhere(l.orders, OrderHasId(id))
    case None => Change(l, false)
    case Some(i) => Change(l.(orders := l.orders[..i] + l.orders[i + 1..]), true)
  }

  /** Deleting keeps the ledger tracked, leaves no order with that identity,
      and keeps that identity's history readable. */
  lemma DeleteKeepsTracked(l: Ledger, id: Guid)
    requires Tracked(l)
    ensures Tracked(Delete(l, id).after)
    ensures forall j :: 0 <= j < |Delete(l, id).after.orders| ==> Delete(l, id).after.orders[j].id != id
    ensures HistoryOf(Delete(l, id).after.histories, id) == HistoryOf(l.histories, id)
  {
    match FirstWhere(l.orders, OrderHasId(id))
    case None =>
    case Some(i) =>
      var os := l.orders[..i] + l.orders[i + 1..];
      forall a | 0 <= a < |os|
        ensures os[a] == l.orders[if a < i then a else a + 1]
      {
      }
      forall a, b | 0 <= a < b < |os|
        ensures DistinctIds(os[a], os[b])
      {
        assert DistinctIds(l.orders[if a < i then a else a + 1], l.orders[if b < i then b else b + 1]);
      }
      forall a | 0 <= a < |os|
        ensures os[a].id != id
      {
        var k := if a < i then a else a + 1;
        if k < i {
          assert !OrderHasId(id)(l.orders[k]);
        } else {
          assert DistinctIds(l.orders[i], l.orders[k]);
        }
      }
  }

  /** `ChangeOrderStatus`: false for an unknown identity, with nothing
      recorded; otherwise the status is set, whatever it was, and one
      "old -> new" entry is appended. */
  function ChangeStatus(l: Ledger, id: Guid, newStatus: Option<string>, operator: Option<string>, historyId: Guid, now: int): (c: Change<bool>)
    ensures c.result <==> exists j :: 0 <= j < |l.orders| && l.orders[j].id == id
    ensures !c.result ==> c.after == l
    ensures l.histories <= c.after.histories && |c.after.orders| == |l.orders|
    ensures c.result ==> |c.after.histories| == |l.histories| + 1
  {
    match FirstWhere(l.orders, OrderHasId(id))
    case None => Change(l, false)
    case Some(i) =>
      var entry := OrderStatusHistory(historyId, id, l.orders[i].status, newStatus, now, operator);
      Change(Ledger(l.orders[i := l.orders[i].(status := newStatus)], l.histories + [entry]), true)
  }

  /** A status change keeps the ledger tracked: the order's status and the
      recorded entry agree, and the entry starts where the order was. */
  lemma ChangeStatusKeepsTracked(l: Ledger, id: Guid, newStatus: Option<string>, operator: Option<string>, historyId: Guid, now: int, i: nat)
    requires Tracked(l) && i < |l.orders| && l.orders[i].id == id
    ensures var c := ChangeStatus(l, id, newStatus, operator, historyId, now);
      && Tracked(c.after)
      && c.after.orders == l.orders[i := l.orders[i].(status := newStatus)]
      && c.after.histories == l.histories + [OrderStatusHistory(historyId, id, l.orders[i].status, newStatus, now, operator)]
      && LastStatus(l.histories, id) == Some(l.orders[i].status)
  {
    assert FirstWhere(l.orders, OrderHasId(id)) == Some(i) by {
      var k := FirstWhere(l.orders, OrderHasId(id));
      if k.Some? && k.value < i {
        assert DistinctIds(l.orders[k.value], l.orders[i]);
      }
    }
    var c := ChangeStatus(l, id, newStatus, operator, historyId, now);
    var e := OrderStatusHistory(historyId, id, l.orders[i].status, newStatus, now, operator);
    forall a | 0 <= a < |c.after.orders|
      ensures LastStatus(c.after.histories, c.after.orders[a].id) == Some(c.after.orders[a].status)
    {
      LastStatusAfterAppend(l.histories, e, c.after.orders[a].id);
      if a != i {
        assert a < i ==> DistinctIds(l.orders[a], l.orders[i]);
        assert a > i ==> DistinctIds(l.orders[i], l.orders[a]);
      }
    }
    forall a, b | 0 <= a < b < |c.after.orders|
      ensures DistinctIds(c.after.orders[a], c.after.orders[b])
    {
      assert DistinctIds(l.orders[a], l.orders[b]);
    }
  }

  // ---------------------------------------------------------------------------
  // The service object.

  class OrderService {
    var orders: seq<Order>
    var histories: seq<OrderStatusHistory>

    function State(): Ledger
      reads this
    {
      Ledger(orders, histories)
    }

    /** The two sample orders and their three history entries; `ids` are the
        eight identities `Guid.NewGuid` hands out, in the order it is called. */
    constructor (ids: seq<Guid>, now: int)
      requires |ids| == 8
      ensures State() == SampleLedger(ids, now)
    {
      orders := SampleLedger(ids, now).orders;
      histories := SampleLedger(ids, now).histories;
    }

    method GetOrders(pageIndex: int, pageSize: int, status: Option<string>) returns (r: seq<Order>)
      ensures r == OrdersPage(orders, pageIndex, pageSize, status)
    {
      r := OrdersPage(orders, pageIndex, pageSize, status);
    }

    method GetOrderById(id: Guid) returns (r: Option<Order>)
      ensures r == FindOrder(orders, id)
    {
      r := FindOrder(orders, id);
    }

    method GetOrderStatusHistory(orderId: Guid) returns (r: seq<OrderStatusHistory>)
      ensures r == HistoryOf(histories, orderId)
    {
      r := HistoryOf(histories, orderId);
    }

    method CreateOrder(order: Order, newId: Guid, historyId: Guid, now: int) returns (r: Order)
      modifies this
      ensures Change(State(), r) == Create(old(State()), order, newId, historyId, now)
    {
      r := order.(id := newId, createdAt := now, status := Some(CreatedStatus));
      orders := orders + [r];
      histories := histories + [OrderStatusHistory(historyId, newId, None, Some(CreatedStatus), now, Some(SystemOperator))];
    }

    method UpdateOrder(order: Order) returns (r: bool)
      modifies this
      ensures Change(State(), r) == Update(old(State()), order)
    {
      var found := FirstWhere(orders, OrderHasId(order.id));
      if found.None? {
        return false;
      }
      var i := found.value;
      orders := orders[i := orders[i].(orderNumber := order.orderNumber, items := order.items, remark := order.remark)];
      r := true;
    }

    method DeleteOrder(id: Guid) returns (r: bool)
      modifies this
      ensures Change(State(), r) == Delete(old(State()), id)
    {
      var found := FirstWhere(orders, OrderHasId(id));
      if found.None? {
        return false;
      }
      var i := found.value;
      orders := orders[..i] + orders[i + 1..];
      r := true;
    }

    method ChangeOrderStatus(id: Guid, newStatus: Option<string>, operator: Option<string>, historyId: Guid, now: int) returns (r: bool)
      modifies this
      ensures Change(State(), r) == ChangeStatus(old(State()), id, newStatus, operator, historyId, now)
    {
      var found := FirstWhere(orders, OrderHasId(id));
      if found.None? {
        return false;
      }
      var i := found.value;
      var oldStatus := orders[i].status;
      orders := orders[i := orders[i].(status := newStatus)];
      histories := histories + [OrderStatusHistory(historyId, id, oldStatus, newStatus, now, operator)];
      r := true;
    }

    method AddRemark(id: Guid, remark: Option<string>) returns (r: bool)
      modifies this
      ensures Change(State(), r) == WithRemark(old(State()), id, remark)
    {
      var found := FirstWhere(orders, OrderHasId(id));
      if found.None? {
        return false;
      }
      var i := found.value;
      orders := orders[i := orders[i].(remark := remark)];
      r := true;
    }
  }
}

/**
 * The orders page: unpaid orders grouped per table, the selected table's group,
 * the arguments handed to the payment modal, and the selection reset after a fetch.
 * Money is in integer cents.
 */
module AdminOrders {
  import opened Wrappers

  /** An order as the backend sends it; line items and creation time play no part here. */
  datatype Order = Order(id: string, tableId: string, totalAmount: int, status: string)

  /** One table's unpaid orders and their running total. */
  datatype TableOrder = TableOrder(tableId: string, orders: seq<Order>, totalAmount: int)

  predicate IsPaid(o: Order) {
    o.status == "paid"
  }

  // ---------------------------------------------------------------------------
  // The grouping reduce and its reference definition
  // ---------------------------------------------------------------------------

  /** One step of the reduce: a paid order is skipped, any other joins its table's group. */
  function AddOrder(acc: map<string, TableOrder>, o: Order): map<string, TableOrder> {
    if IsPaid(o) then acc
    else
      var g := if o.tableId in acc then acc[o.tableId] else TableOrder(o.tableId, [], 0);
      acc[o.tableId := TableOrder(g.tableId, g.orders + [o], g.totalAmount + o.totalAmount)]
  }

  /** The reduce over the fetched list, starting from the empty object. */
  function Grouped(orders: seq<Order>): map<string, TableOrder> {
    if orders == [] then map[]
    else AddOrder(Grouped(orders[..|orders| - 1]), orders[|orders| - 1])
  }

  /** Reference: the unpaid orders of table `t`, in the order they were fetched. */
  function UnpaidAt(orders: seq<Order>, t: string): seq<Order> {
    if orders == [] then []
    else
      var last := orders[|orders| - 1];
      UnpaidAt(orders[..|orders| - 1], t) + (if last.tableId == t && !IsPaid(last) then [last] else [])
  }

  /** Sum of the orders' totals, starting from 0. */
  function Sum(os: seq<Order>): int {
    if os == [] then 0 else Sum(os[..|os| - 1]) + os[|os| - 1].totalAmount
  }

  /** What the reduce builds, told without a fold: a table has a group exactly when it has an
    * unpaid order, and the group holds those orders and their sum. */
  lemma {:induction false} GroupedIsUnpaidPerTable(orders: seq<Order>, t: string)
    ensures t in Grouped(orders) <==> UnpaidAt(orders, t) != []
    ensures t in Grouped(orders) ==>
              Grouped(orders)[t] == TableOrder(t, UnpaidAt(orders, t), Sum(UnpaidAt(orders, t)))
  {
    if orders != [] {
      var init, last := orders[..|orders| - 1], orders[|orders| - 1];
      GroupedIsUnpaidPerTable(init, t);
      var u := UnpaidAt(init, t);
      if last.tableId == t && !IsPaid(last) {
        assert UnpaidAt(orders, t) == u + [last];
        assert (u + [last])[..|u|] == u;
        assert Sum(u + [last]) == Sum(u) + last.totalAmount;
        var g := if t in Grouped(init) then Grouped(init)[t] else TableOrder(t, [], 0);
        assert g.orders == u && g.totalAmount == Sum(u) && g.tableId == t;
        assert Grouped(orders) == AddOrder(Grouped(init), last);
        assert Grouped(orders)[t] == TableOrder(t, u + [last], Sum(u) + last.totalAmount);
      } else {
        assert UnpaidAt(orders, t) == u + [];
        assert u + [] == u;
        assert Grouped(orders) == AddOrder(Grouped(init), last);
        assert t in Grouped(orders) <==> t in Grouped(init);
        assert t in Grouped(orders) ==> Grouped(orders)[t] == Grouped(init)[t];
      }
    }
  }

  /** Every order in a table's reference list is an unpaid order of that table taken from the input. */
  lemma {:induction false} UnpaidAtMembers(orders: seq<Order>, t: string, o: Order)
    ensures o in UnpaidAt(orders, t) <==> o in orders && o.tableId == t && !IsPaid(o)
  {
    if orders != [] {
      var init := orders[..|orders| - 1];
      UnpaidAtMembers(init, t, o);
      assert orders == init + [orders[|orders| - 1]];
    }
  }

  /** The reference list splits along the input. */
  lemma {:induction false} UnpaidAtAppend(a: seq<Order>, b: seq<Order>, t: string)
    ensures UnpaidAt(a + b, t) == UnpaidAt(a, t) + UnpaidAt(b, t)
  {
    if b == [] {
      assert a + b == a;
    } else {
      UnpaidAtAppend(a, b[..|b| - 1], t);
      assert (a + b)[..|a + b| - 1] == a + b[..|b| - 1];
    }
  }

  /** The first entry of a table's reference list is the earliest unpaid order of that table. */
  lemma {:induction false} UnpaidAtHead(orders: seq<Order>, t: string)
    requires UnpaidAt(orders, t) != []
    ensures exists i :: 0 <= i < |orders| && orders[i] == UnpaidAt(orders, t)[0]
                        && orders[i].tableId == t && !IsPaid(orders[i])
                        && forall j :: 0 <= j < i ==> !(orders[j].tableId == t && !IsPaid(orders[j]))
  {
    var init, last := orders[..|orders| - 1], orders[|orders| - 1];
    if UnpaidAt(init, t) != [] {
      UnpaidAtHead(init, t);
      var i :| 0 <= i < |init| && init[i] == UnpaidAt(init, t)[0]
               && init[i].tableId == t && !IsPaid(init[i])
               && forall j :: 0 <= j < i ==> !(init[j].tableId == t && !IsPaid(init[j]));
      var tail := if last.tableId == t && !IsPaid(last) then [last] else [];
      assert UnpaidAt(orders, t) == UnpaidAt(init, t) + tail;
      assert UnpaidAt(orders, t)[0] == UnpaidAt(init, t)[0];
      assert forall j :: 0 <= j <= i ==> orders[j] == init[j];
    } else {
      NoneUnpaidBefore(init, t);
      assert UnpaidAt(orders, t) == [] + [last] && last.tableId == t && !IsPaid(last);
      assert forall j :: 0 <= j < |init| ==> orders[j] == init[j];
    }
  }

  lemma {:induction false} NoneUnpaidBefore(orders: seq<Order>, t: string)
    requires UnpaidAt(orders, t) == []
    ensures forall j :: 0 <= j < |orders| ==> !(orders[j].tableId == t && !IsPaid(orders[j]))
  {
    forall j | 0 <= j < |orders|
      ensures !(orders[j].tableId == t && !IsPaid(orders[j]))
    {
      UnpaidAtMembers(orders, t, orders[j]);
    }
  }

  /** The reduce as the page runs it: one pass that creates a group on a table's first unpaid
    * order, pushes the order onto the group and adds its total. */
  method GroupOrders(orders: seq<Order>) returns (groups: map<string, TableOrder>)
    ensures groups == Grouped(orders)
    ensures forall t :: t in groups <==> UnpaidAt(orders, t) != []
    ensures forall t :: t in groups ==> (groups[t].tableId == t
                                      && groups[t].orders == UnpaidAt(orders, t)
                                      && groups[t].totalAmount == Sum(groups[t].orders))
  {
    groups := map[];
    var i := 0;
    while i < |orders|
      invariant 0 <= i <= |orders|
      invariant groups == Grouped(orders[..i])
    {
      var order := orders[i];
      if order.status != "paid" {
        if order.tableId !in groups {
          groups := groups[order.tableId := TableOrder(order.tableId, [], 0)];
        }
        var g := groups[order.tableId];
        groups := groups[order.tableId := g.(orders := g.orders + [order])];
        g := groups[order.tableId];
        groups := groups[order.tableId := g.(totalAmount := g.totalAmount + order.totalAmount)];
      }
      assert orders[..i + 1][..i] == orders[..i];
      i := i + 1;
    }
    assert orders[..|orders|] == orders;
    forall t
      ensures t in groups <==> UnpaidAt(orders, t) != []
      ensures t in groups ==> (groups[t].tableId == t
                            && groups[t].orders == UnpaidAt(orders, t)
                            && groups[t].totalAmount == Sum(groups[t].orders))
    {
      GroupedIsUnpaidPerTable(orders, t);
    }
  }

  // ---------------------------------------------------------------------------
  // Consequences of the reference definition
  // ---------------------------------------------------------------------------

  /** No paid order is in any group, and a group only holds orders of its own table. */
  lemma NoPaidOrderGrouped(orders: seq<Order>, t: string, o: Order)
    requires t in Grouped(orders) && o in Grouped(orders)[t].orders
    ensures !IsPaid(o) && o.tableId == t && o in orders
  {
    GroupedIsUnpaidPerTable(orders, t);
    UnpaidAtMembers(orders, t, o);
  }

  /** Every unpaid order lands in the group of its table (and, by the lemma above, in no other). */
  lemma UnpaidOrderGrouped(orders: seq<Order>, o: Order)
    requires o in orders && !IsPaid(o)
    ensures o.tableId in Grouped(orders) && o in Grouped(orders)[o.tableId].orders
  {
    UnpaidAtMembers(orders, o.tableId, o);
    GroupedIsUnpaidPerTable(orders, o.tableId);
  }

  /** Every group has at least one order, so the page's `orders[0]` exists. */
  lemma GroupsAreNonEmpty(orders: seq<Order>, t: string)
    requires t in Grouped(orders)
    ensures Grouped(orders)[t].orders != []
  {
    GroupedIsUnpaidPerTable(orders, t);
  }

  /** Empty input, or input whose orders are all paid, yields no groups. */
  lemma AllPaidMeansNoGroups(orders: seq<Order>)
    requires forall i :: 0 <= i < |orders| ==> IsPaid(orders[i])
    ensures Grouped(orders) == map[]
  {
    forall t | t in Grouped(orders)
      ensures false
    {
      GroupedIsUnpaidPerTable(orders, t);
      var o := UnpaidAt(orders, t)[0];
      UnpaidAtMembers(orders, t, o);
    }
  }

  /** Two unpaid orders of one table keep their fetched order inside the group. */
  lemma GroupKeepsFetchOrder(orders: seq<Order>, i: nat, j: nat)
    requires i < j < |orders|
    requires orders[i].tableId == orders[j].tableId && !IsPaid(orders[i]) && !IsPaid(orders[j])
    ensures var t := orders[i].tableId;
            t in Grouped(orders) &&
            exists p, q :: 0 <= p < q < |Grouped(orders)[t].orders|
                           && Grouped(orders)[t].orders[p] == orders[i]
                           && Grouped(orders)[t].orders[q] == orders[j]
  {
    var t := orders[i].tableId;
    var before, after := orders[..j], orders[j + 1..];
    assert orders == before + [orders[j]] + after;
    UnpaidAtAppend(before + [orders[j]], after, t);
    assert (before + [orders[j]])[..j] == before;
    var u := UnpaidAt(before, t);
    UnpaidAtMembers(before, t, orders[i]);
    var p :| 0 <= p < |u| && u[p] == orders[i];
    var whole := UnpaidAt(orders, t);
    assert whole == u + [orders[j]] + UnpaidAt(after, t);
    assert whole[p] == orders[i] && whole[|u|] == orders[j];
    UnpaidOrderGrouped(orders, orders[i]);
    GroupedIsUnpaidPerTable(orders, t);
  }

  // ---------------------------------------------------------------------------
  // The selected table and the payment it leads to
  // ---------------------------------------------------------------------------

  /** JavaScript truthiness of the selected table id: `null` and `""` both count as no selection. */
  predicate IsSelected(sel: Option<string>) {
    sel.Some? && sel.value != ""
  }

  /** `groupedOrders.find(group => group.tableId === t)` over any listing of the groups. */
  function FindGroup(groups: seq<TableOrder>, t: string): Option<TableOrder> {
    if groups == [] then None
    else if groups[0].tableId == t then Some(groups[0])
    else FindGroup(groups[1..], t)
  }

  /** Whatever order `Object.values` lists the groups in, `find` returns the group keyed by `t`,
    * because a group's table id is its key. */
  lemma {:induction false} FindGroupIsLookup(orders: seq<Order>, values: seq<TableOrder>, t: string)
    requires forall g :: g in values <==> g in Grouped(orders).Values
    ensures FindGroup(values, t) == if t in Grouped(orders) then Some(Grouped(orders)[t]) else None
  {
    var m := Grouped(orders);
    assert forall k :: k in m ==> m[k] in m.Values;
    if values != [] {
      forall k | k in m
        ensures m[k].tableId == k
      {
        GroupedIsUnpaidPerTable(orders, k);
      }
      var rest := values[1..];
      if values[0].tableId == t {
        assert values[0] in m.Values;
        var k :| k in m && m[k] == values[0];
      } else {
        if t in m {
          assert m[t] in values;
          assert m[t] in rest;
        }
        FindGroupInRest(m, values, t);
      }
    }
  }

  /** The `find` recursion, with the key-equals-tableId fact as a hypothesis. */
  lemma {:induction false} FindGroupInRest(m: map<string, TableOrder>, values: seq<TableOrder>, t: string)
    requires values != [] && values[0].tableId != t
    requires forall k :: k in m ==> m[k].tableId == k
    requires forall g :: g in values ==> g in m.Values
    requires t in m ==> m[t] in values
    ensures FindGroup(values, t) == if t in m then Some(m[t]) else None
  {
    var rest := values[1..];
    if rest == [] {
    } else if rest[0].tableId == t {
      assert rest[0] in m.Values;
      var k :| k in m && m[k] == rest[0];
    } else {
      if t in m {
        assert m[t] in rest;
      }
      FindGroupInRest(m, rest, t);
    }
  }

  /** `selectedTableOrders`: the selected table's group, or nothing when no table is selected. */
  function SelectedTableOrders(orders: seq<Order>, sel: Option<string>): (r: Option<TableOrder>)
    ensures r.Some? <==> IsSelected(sel) && UnpaidAt(orders, sel.value) != []
    ensures r.Some? ==> (r.value.tableId == sel.value
                      && r.value.orders == UnpaidAt(orders, sel.value) && r.value.orders != []
                      && r.value.totalAmount == Sum(r.value.orders))
  {
    if !IsSelected(sel) then None
    else
      GroupedIsUnpaidPerTable(orders, sel.value);
      var groups := Grouped(orders);
      if sel.value in groups then Some(groups[sel.value]) else None
  }

  /** What the page passes to the payment modal. */
  datatype PaymentTarget = PaymentTarget(totalAmount: int, tableId: string, orderId: string)

  /** The modal is opened with the group's total, its table and the id of `orders[0]`. */
  function PaymentTargetFor(orders: seq<Order>, sel: Option<string>): (r: Option<PaymentTarget>)
    ensures r.Some? <==> IsSelected(sel) && UnpaidAt(orders, sel.value) != []
    ensures r.Some? ==> r.value.tableId == sel.value && r.value.totalAmount == Sum(UnpaidAt(orders, sel.value))
    ensures r.Some? ==> exists i :: 0 <= i < |orders| && orders[i].id == r.value.orderId
                                    && orders[i].tableId == sel.value && !IsPaid(orders[i])
                                    && forall j :: 0 <= j < i ==> !(orders[j].tableId == sel.value && !IsPaid(orders[j]))
  {
    match SelectedTableOrders(orders, sel)
    case None => None
    case Some(g) =>
      UnpaidAtHead(orders, sel.value);
      Some(PaymentTarget(g.totalAmount, g.tableId, g.orders[0].id))
  }

  /** `data.some(order => order.tableId === t)`: any fetched order, paid or not, sits at table `t`. */
  predicate HasTable(data: seq<Order>, t: string) {
    exists i :: 0 <= i < |data| && data[i].tableId == t
  }

  /** The selection after a fetch: dropped when it was set and no fetched order is at that table. */
  function SelectionAfterFetch(sel: Option<string>, data: seq<Order>): (r: Option<string>)
    ensures r == None <==> sel == None || (IsSelected(sel) && !HasTable(data, sel.value))
    ensures r != None ==> r == sel
  {
    if IsSelected(sel) && !HasTable(data, sel.value) then None else sel
  }

  /** A table whose orders all came back paid stays selected, yet has no group to show. */
  lemma SelectionSurvivesWithoutGroup()
    ensures var data := [Order("o1", "T1", 1200, "paid")];
            SelectionAfterFetch(Some("T1"), data) == Some("T1")
            && SelectedTableOrders(data, Some("T1")) == None
  {
    var data := [Order("o1", "T1", 1200, "paid")];
    assert HasTable(data, "T1") by { assert data[0].tableId == "T1"; }
    assert UnpaidAt(data, "T1") == [] by { assert data[..0] == []; }
  }

  /** The page state this model keeps: the fetched list, the selected table and the last error. */
  class OrdersPage {
    var orders: seq<Order>
    var selectedTableId: Option<string>
    var error: Option<string>

    constructor ()
      ensures orders == [] && selectedTableId == None && error == None
    {
      orders := [];
      selectedTableId := None;
      error := None;
    }

    /** Clicking a table in the list. */
    method SelectTable(t: string)
      modifies this
      ensures selectedTableId == Some(t)
      ensures orders == old(orders) && error == old(error)
    {
      selectedTableId := Some(t);
    }

    /** A successful fetch: the list is replaced and a selection with no order left is dropped. */
    method OrdersFetched(data: seq<Order>)
      modifies this
      ensures orders == data
      ensures selectedTableId == SelectionAfterFetch(old(selectedTableId), data)
      ensures error == old(error)
    {
      orders := data;
      if IsSelected(selectedTableId) && !HasTable(data, selectedTableId.value) {
        selectedTableId := None;
      }
    }

    /** A failed fetch only records its message; the list and the selection stay. */
    method FetchFailed(message: string)
      modifies this
      ensures error == Some(message)
      ensures orders == old(orders) && selectedTableId == old(selectedTableId)
    {
      error := Some(message);
    }

    /** The groups the page lists, recomputed from the current orders. */
    method GroupedOrders() returns (groups: map<string, TableOrder>)
      ensures groups == Grouped(orders)
    {
      groups := GroupOrders(orders);
    }
  }

}

/**
 * The list operations both dashboards build their order-list updates from:
 * renumbering the queue, replacing the status of the orders with one id,
 * removing the orders with one id, and the earnings total.
 */
module Orders {
  import opened Wrappers
  import opened Entities
  import Lists

  /** Queue positions run 1, 2, 3, ... in list order. */
  predicate Contiguous(orders: seq<Order>) {
    forall i :: 0 <= i < |orders| ==> orders[i].queuePosition == Some(i + 1)
  }

  /** `data.map((item, index) => ({ ...item, queuePosition: index + 1 }))`. */
  function Renumber(orders: seq<Order>): (r: seq<Order>)
    ensures |r| == |orders|
    ensures Contiguous(r)
    ensures forall i :: 0 <= i < |r| ==> r[i] == orders[i].(queuePosition := Some(i + 1))
  {
    seq(|orders|, i requires 0 <= i < |orders| => orders[i].(queuePosition := Some(i + 1)))
  }

  /** Renumbering a contiguous list changes nothing, so renumbering is idempotent. */
  lemma RenumberContiguous(orders: seq<Order>)
    requires Contiguous(orders)
    ensures Renumber(orders) == orders
  {
  }

  lemma RenumberIdempotent(orders: seq<Order>)
    ensures Renumber(Renumber(orders)) == Renumber(orders)
  {
    RenumberContiguous(Renumber(orders));
  }

  /** `orders.map(o => o.id === id ? { ...o, status } : o)`. */
  function SetStatusWhere(orders: seq<Order>, id: string, status: string): (r: seq<Order>)
    ensures |r| == |orders|
    ensures forall i :: 0 <= i < |r| && orders[i].id == id ==> r[i] == orders[i].(status := Some(status))
    ensures forall i :: 0 <= i < |r| && orders[i].id != id ==> r[i] == orders[i]
  {
    seq(|orders|, i requires 0 <= i < |orders| =>
      if orders[i].id == id then orders[i].(status := Some(status)) else orders[i])
  }

  /** Replacing a status keeps queue positions, so it keeps contiguity. */
  lemma SetStatusKeepsContiguous(orders: seq<Order>, id: string, status: string)
    requires Contiguous(orders)
    ensures Contiguous(SetStatusWhere(orders, id, status))
  {
  }

  function HasOtherId(id: string): Order -> bool {
    (o: Order) => o.id != id
  }

  /** `orders.filter(o => o.id !== id)`. */
  function WithoutId(orders: seq<Order>, id: string): (r: seq<Order>)
    ensures |r| <= |orders|
    ensures forall i :: 0 <= i < |r| ==> r[i].id != id && r[i] in orders
    ensures forall i :: 0 <= i < |orders| && orders[i].id != id ==> orders[i] in r
    ensures Lists.IsSubseq(r, orders)
    ensures forall o :: multiset(r)[o] == if o.id != id then multiset(orders)[o] else 0
  {
    Lists.FilterIsSubseq(orders, HasOtherId(id));
    Lists.FilterCounts(orders, HasOtherId(id));
    Lists.Filter(orders, HasOtherId(id))
  }

  /** Removing an id that is absent changes nothing. */
  lemma WithoutAbsentId(orders: seq<Order>, id: string)
    requires forall i :: 0 <= i < |orders| ==> orders[i].id != id
    ensures WithoutId(orders, id) == orders
  {
    Lists.FilterAll(orders, HasOtherId(id));
  }

  /** Removing any order but the last from a numbered list leaves the order
      after it one place too far down: removal does not renumber, so the list
      is no longer numbered 1, 2, 3, ... */
  lemma RemovalBreaksContiguity(orders: seq<Order>, k: nat)
    requires k < |orders| - 1
    requires Contiguous(orders)
    requires forall i :: 0 <= i < |orders| && i != k ==> orders[i].id != orders[k].id
    ensures !Contiguous(WithoutId(orders, orders[k].id))
  {
    var p := HasOtherId(orders[k].id);
    var front, back := orders[..k], orders[k + 1..];
    assert orders == front + [orders[k]] + back;
    Lists.FilterConcat(front + [orders[k]], back, p);
    Lists.FilterConcat(front, [orders[k]], p);
    Lists.FilterAll(front, p);
    assert Lists.Filter([orders[k]], p) == [];
    assert Lists.Filter(back, p) == [back[0]] + Lists.Filter(back[1..], p);
    var r := WithoutId(orders, orders[k].id);
    assert r[k] == orders[k + 1];
  }

  /** `Number(item.earning || item.payout || 0)`: earning, else payout, else 0. */
  function OrderEarning(o: Order): nat {
    FirstTruthy(o.earning, o.payout)
  }

  /** `orders.reduce((sum, item) => sum + earning(item), 0)`. */
  function TotalEarning(orders: seq<Order>): (total: nat)
    ensures forall i :: 0 <= i < |orders| ==> OrderEarning(orders[i]) <= total
    ensures total == 0 <==> forall i :: 0 <= i < |orders| ==> OrderEarning(orders[i]) == 0
    decreases |orders|
  {
    if orders == [] then 0 else OrderEarning(orders[0]) + TotalEarning(orders[1..])
  }

  /** The total is additive over concatenation. */
  lemma {:induction false} TotalEarningConcat(a: seq<Order>, b: seq<Order>)
    ensures TotalEarning(a + b) == TotalEarning(a) + TotalEarning(b)
    decreases |a|
  {
    if a == [] {
      assert a + b == b;
    } else {
      assert (a + b)[1..] == a[1..] + b;
      TotalEarningConcat(a[1..], b);
    }
  }

  /** The total depends only on the earning fields, never on queue positions or
      statuses, so renumbering and accepting keep it. */
  lemma {:induction false} TotalEarningIgnoresPositionAndStatus(a: seq<Order>, b: seq<Order>)
    requires |a| == |b|
    requires forall i :: 0 <= i < |a| ==> a[i].earning == b[i].earning && a[i].payout == b[i].payout
    ensures TotalEarning(a) == TotalEarning(b)
    decreases |a|
  {
    if a != [] {
      TotalEarningIgnoresPositionAndStatus(a[1..], b[1..]);
    }
  }

  /** Removing orders never raises the total. */
  lemma {:induction false} TotalEarningOfSubseq(a: seq<Order>, b: seq<Order>)
    requires Lists.IsSubseq(a, b)
    ensures TotalEarning(a) <= TotalEarning(b)
    decreases |b|
  {
    if a != [] {
      if a[0] == b[0] {
        TotalEarningOfSubseq(a[1..], b[1..]);
      } else {
        TotalEarningOfSubseq(a, b[1..]);
      }
    }
  }
}

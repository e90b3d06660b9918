/**
 * The dashboard wired into the rider tabs. It keeps its own order list and
 * enriches each loaded order with a default status, a priority, a deadline and
 * a queue position. Accept has no transition guard; reject and expiry remove
 * the order. It also shows a shift clock and a per-order countdown.
 *
 * The clock (`Date.now()`) is the parameter `now`, in milliseconds.
 */
module RiderDashboard {
  import opened Wrappers
  import opened Entities
  import Orders
  import Lists
  import Dashboard

  /** The status a missing or empty one defaults to; it is not normalised. */
  const DefaultStatus := "Pending"
  /** The status `acceptOrder` writes, again not the canonical spelling. */
  const AcceptedStatus := "Accepted"

  /** `res?.data`: an array, nothing (falsy), or some other value, on which the
      enrichment's `map` throws. */
  datatype DataBody = DataArray(items: seq<Order>) | DataMissing | DataOther

  datatype LoadResult = Loaded(data: DataBody) | LoadFailed

  /** The priority by list position. */
  function PriorityAt(i: nat): (p: Priority)
    ensures p == High <==> i == 0
    ensures p == Medium <==> i == 1
  {
    if i == 0 then High else if i == 1 then Medium else Low
  }

  /** The deadline offset of the order at position `i`: five minutes, plus two
      more per position. */
  function DeadlineOffsetMs(i: nat): int {
    (5 + i * 2) * 60 * 1000
  }

  /** The enrichment of one loaded list at time `now`. */
  function Enrich(data: seq<Order>, now: int): (r: seq<Order>)
    ensures |r| == |data|
    ensures Orders.Contiguous(r)
    ensures forall i :: 0 <= i < |r| ==>
      && r[i].id == data[i].id && r[i].earning == data[i].earning && r[i].payout == data[i].payout
      && r[i].details == data[i].details
      && r[i].priority == Some(PriorityAt(i))
      && r[i].deadline == Some(now + DeadlineOffsetMs(i))
    ensures forall i :: 0 <= i < |r| ==> TextTruthy(r[i].status)
    ensures forall i :: 0 <= i < |r| ==>
      r[i].status == if TextTruthy(data[i].status) then data[i].status else Some(DefaultStatus)
  {
    seq(|data|, i requires 0 <= i < |data| =>
      data[i].(status := if TextTruthy(data[i].status) then data[i].status else Some(DefaultStatus),
               deadline := Some(now + DeadlineOffsetMs(i)),
               priority := Some(PriorityAt(i)),
               queuePosition := Some(i + 1)))
  }

  /** Deadlines grow strictly with the position, the first is five minutes out,
      and every one is at least five minutes out. */
  lemma DeadlinesIncrease(data: seq<Order>, now: int)
    ensures var r := Enrich(data, now);
      && (forall i, j :: 0 <= i < j < |r| ==> r[i].deadline.value < r[j].deadline.value)
      && (forall i :: 0 <= i < |r| ==> r[i].deadline.value >= now + 300000)
      && (|r| > 0 ==> r[0].deadline == Some(now + 300000))
  {
  }

  /** Only the first two orders get a priority above LOW. */
  lemma PriorityRanks(data: seq<Order>, now: int)
    ensures var r := Enrich(data, now);
      forall i :: 2 <= i < |r| ==> r[i].priority == Some(Low)
  {
  }

  /** What the countdown shows: the whole seconds left, never negative. A missing
      deadline makes the arithmetic NaN, which is never 0, so the order never
      expires (`None`). */
  function SecondsLeft(deadline: Option<int>, now: int): (r: Option<nat>)
    ensures deadline.None? <==> r.None?
    ensures r.Some? && deadline.value - now >= 0 ==>
      r.value * 1000 <= deadline.value - now < (r.value + 1) * 1000
    ensures r.Some? ==> (r.value == 0 <==> deadline.value - now < 1000)
  {
    match deadline
    case None => None
    case Some(d) => if d - now < 0 then Some(0) else Some((d - now) / 1000)
  }

  /** Minutes and zero-padded seconds of the countdown; under two minutes left it
      is shown in the danger colour. */
  datatype Countdown = Countdown(minutes: nat, seconds: nat, danger: bool)

  function CountdownText(timeLeft: nat): (c: Countdown)
    ensures c.minutes * 60 + c.seconds == timeLeft && c.seconds < 60
    ensures c.danger <==> c.minutes < 2
  {
    Countdown(timeLeft / 60, timeLeft % 60, timeLeft < 120)
  }

  /** The shift clock with seconds. */
  datatype ShiftClock = ShiftClock(hours: nat, minutes: nat, seconds: nat)

  function FormatShift(shiftSeconds: nat): (c: ShiftClock)
    ensures c.hours * 3600 + c.minutes * 60 + c.seconds == shiftSeconds
    ensures c.minutes < 60 && c.seconds < 60
  {
    var hours := shiftSeconds / 3600;
    var rest := shiftSeconds % 3600;
    var minutes := rest / 60;
    assert shiftSeconds == (hours * 60 + minutes) * 60 + rest % 60;
    assert shiftSeconds % 60 == rest % 60;
    ShiftClock(hours, minutes, shiftSeconds % 60)
  }

  /** The two dashboards show the same hours and minutes for the same shift. */
  lemma ShiftClocksAgree(shiftSeconds: nat)
    ensures FormatShift(shiftSeconds).hours == Dashboard.ShiftText(shiftSeconds).hours
    ensures FormatShift(shiftSeconds).minutes == Dashboard.ShiftText(shiftSeconds).minutes
  {
    var c := FormatShift(shiftSeconds);
    var d := Dashboard.ShiftText(shiftSeconds);
    ClockUnique(c.hours, c.minutes, c.seconds, d.hours, d.minutes, shiftSeconds);
  }

  lemma ClockUnique(h: nat, m: nat, s: nat, h': nat, m': nat, total: nat)
    requires m < 60 && s < 60 && m' < 60
    requires h * 3600 + m * 60 + s == total
    requires h' * 3600 + m' * 60 <= total < h' * 3600 + m' * 60 + 60
    ensures h == h' && m == m'
  {
  }

  /** The queue badge by position. */
  datatype QueueBadge = Active | Next | Numbered(position: Option<int>)

  function QueueLabel(position: Option<int>): (b: QueueBadge)
    ensures b == Active <==> position == Some(1)
    ensures b == Next <==> position == Some(2)
    ensures b.Numbered? ==> b.position == position
  {
    if position == Some(1) then Active
    else if position == Some(2) then Next
    else Numbered(position)
  }

  /** In a numbered list the first order is ACTIVE, the second NEXT and the
      others are numbered by position. */
  lemma QueueLabelsOfContiguous(orders: seq<Order>)
    requires Orders.Contiguous(orders)
    ensures |orders| > 0 ==> QueueLabel(orders[0].queuePosition) == Active
    ensures |orders| > 1 ==> QueueLabel(orders[1].queuePosition) == Next
    ensures forall i :: 2 <= i < |orders| ==> QueueLabel(orders[i].queuePosition) == Numbered(Some(i + 1))
  {
  }

  /** Accept and Reject are offered unless the status is exactly "Accepted", so
      the canonical spelling ACCEPTED still shows them. */
  predicate ShowsActions(item: Order) {
    item.status != Some(AcceptedStatus)
  }

  lemma CanonicalAcceptedShowsActions(item: Order)
    requires item.status == Some("ACCEPTED")
    ensures ShowsActions(item)
  {
  }

  /** The screen's own state. */
  class Screen {
    var orders: seq<Order>
    var loading: bool
    var refreshing: bool
    var online: bool

    constructor()
      ensures orders == [] && loading && !refreshing && online
    {
      orders := [];
      loading := true;
      refreshing := false;
      online := true;
    }

    /** `loadOrders` settling at time `now`: an array is enriched and replaces the
        list, missing data empties it, anything else (a failed request, or data
        the enrichment throws on) is logged and keeps the list; both flags are
        cleared on every path. */
    method OnLoadSettled(res: LoadResult, now: int)
      modifies this
      ensures res == Loaded(DataMissing) ==> orders == []
      ensures res.Loaded? && res.data.DataArray? ==> orders == Enrich(res.data.items, now)
      ensures res == LoadFailed || res == Loaded(DataOther) ==> orders == old(orders)
      ensures !loading && !refreshing && online == old(online)
    {
      match res {
        case Loaded(DataArray(items)) => orders := Enrich(items, now);
        case Loaded(DataMissing) => orders := [];
        case _ =>
      }
      loading := false;
      refreshing := false;
    }

    method Refresh()
      modifies this
      ensures refreshing && orders == old(orders) && loading == old(loading) && online == old(online)
    {
      refreshing := true;
    }

    method ToggleOnline()
      modifies this
      ensures online == !old(online)
      ensures orders == old(orders) && loading == old(loading) && refreshing == old(refreshing)
    {
      online := !online;
    }

    /** `acceptOrder`: no transition guard; the matching orders get "Accepted",
        and the order as it was is opened. */
    method AcceptOrder(order: Order) returns (detail: Order)
      modifies this
      ensures orders == Orders.SetStatusWhere(old(orders), order.id, AcceptedStatus)
      ensures forall i :: 0 <= i < |orders| && orders[i].id == order.id ==> !ShowsActions(orders[i])
      ensures detail == order
      ensures loading == old(loading) && refreshing == old(refreshing) && online == old(online)
    {
      orders := Orders.SetStatusWhere(orders, order.id, AcceptedStatus);
      detail := order;
    }

    /** `rejectOrder`. */
    method RejectOrder(order: Order)
      modifies this
      ensures orders == Orders.WithoutId(old(orders), order.id)
      ensures loading == old(loading) && refreshing == old(refreshing) && online == old(online)
    {
      orders := Orders.WithoutId(orders, order.id);
    }

    /** A countdown tick for `order` at time `now`: at zero the order expires,
        which removes it like a reject and raises an alert. */
    method Tick(order: Order, now: int) returns (expired: bool)
      modifies this
      ensures expired <==> SecondsLeft(order.deadline, now) == Some(0)
      ensures expired ==> orders == Orders.WithoutId(old(orders), order.id)
      ensures !expired ==> orders == old(orders)
      ensures loading == old(loading) && refreshing == old(refreshing) && online == old(online)
    {
      expired := SecondsLeft(order.deadline, now) == Some(0);
      if expired {
        orders := Orders.WithoutId(orders, order.id);
      }
    }

    /** Drag end renumbers the reordered list. */
    method OnDragEnd(data: seq<Order>)
      modifies this
      ensures orders == Orders.Renumber(data)
      ensures loading == old(loading) && refreshing == old(refreshing) && online == old(online)
    {
      orders := Orders.Renumber(data);
    }
  }

  /** Loading one order and accepting it: it keeps position 1 (ACTIVE) and loses
      its buttons; a tick before its deadline changes nothing, and the tick at
      the deadline expires it, even though it was accepted. */
  method LoadAcceptExpire(first: Order, now: int) returns (s: Screen, early: bool, late: bool)
    ensures !early && late && s.orders == []
  {
    s := new Screen();
    s.OnLoadSettled(Loaded(DataArray([first])), now);
    var detail := s.AcceptOrder(s.orders[0]);
    var accepted := s.orders[0];
    assert !ShowsActions(accepted) && QueueLabel(accepted.queuePosition) == Active;
    early := s.Tick(accepted, now + 1000);
    late := s.Tick(accepted, now + DeadlineOffsetMs(0));
    assert s.orders == Orders.WithoutId([accepted], accepted.id);
  }
}

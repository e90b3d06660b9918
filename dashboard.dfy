/**
 * The store-backed dashboard: loading the assigned orders (normalised statuses,
 * queue positions 1, 2, 3, ...), the guarded accept and reject handlers, the
 * drag-to-reorder renumbering, the earnings total, the accept button's disabled
 * rule and the shift clock text.
 *
 * The offline flag is an input: the store as written has no network slice.
 */
module Dashboard {
  import opened Wrappers
  import opened Text
  import opened Entities
  import opened OrderStatus
  import Orders
  import Lists
  import AppStore
  import DeliveryUpload

  const OfflineMessage := "You are offline. Connect to internet first."
  const LoadFailedMessage := "Unable to load orders."
  const RefreshFailedMessage := "Unable to refresh orders."

  /** What `fetchAssignedOrders` resolves with: the HTTP response itself, whose
      `data` field is the server's body. No interceptor unwraps it. */
  datatype Response = Response(status: nat, data: ListBody<Order>)

  /** What the orders request settled with. */
  datatype FetchResult = Fetched(response: Response) | FetchFailed(errorName: Option<string>)

  /** The response object as the array-or-items fallback sees it: it is not an
      array and has no `items` field, whatever the server sent. */
  function AsListBody(resp: Response): ListBody<Order> {
    ObjectBody(None)
  }

  /** The loaded list: the body's orders with normalised statuses and queue
      positions from 1 in list order, every other field as received. */
  function NormalizeLoaded(body: ListBody<Order>): (r: seq<Order>)
    ensures |r| == |ItemsOf(body)|
    ensures Orders.Contiguous(r)
    ensures forall i :: 0 <= i < |r| ==>
      var o := ItemsOf(body)[i];
      && r[i].id == o.id && r[i].earning == o.earning && r[i].payout == o.payout
      && r[i].priority == o.priority && r[i].deadline == o.deadline && r[i].details == o.details
    ensures forall i :: 0 <= i < |r| ==>
      r[i].status.Some? && NoSpace(r[i].status.value) && NoLower(r[i].status.value)
    ensures forall i :: 0 <= i < |r| ==> r[i].status == Some(Normalize(ItemsOf(body)[i].status))
  {
    var items := ItemsOf(body);
    Orders.Renumber(seq(|items|, i requires 0 <= i < |items| =>
      items[i].(status := Some(Normalize(items[i].status)))))
  }

  /** As written, the fallback is applied to the response rather than to its
      `data`, so every successful load stores the empty list, and a server that
      sent orders sees none of them shown. */
  lemma LoadedAsWrittenIsEmpty(resp: Response)
    ensures NormalizeLoaded(AsListBody(resp)) == []
    ensures ItemsOf(resp.data) != [] ==> NormalizeLoaded(AsListBody(resp)) != NormalizeLoaded(resp.data)
  {
  }

  /** The load as intended: the fallback is applied to the response's `data`, so
      the server's orders are shown in the order sent, numbered 1..n, with the
      same ids and earnings. */
  function LoadedFromResponse(resp: Response): (r: seq<Order>)
    ensures |r| == |ItemsOf(resp.data)|
    ensures Orders.Contiguous(r)
    ensures forall i :: 0 <= i < |r| ==>
      r[i].id == ItemsOf(resp.data)[i].id && r[i].earning == ItemsOf(resp.data)[i].earning
    ensures Orders.TotalEarning(r) == Orders.TotalEarning(ItemsOf(resp.data))
  {
    LoadKeepsTotal(resp.data);
    NormalizeLoaded(resp.data)
  }

  /** Loading never changes what the orders earn. */
  lemma LoadKeepsTotal(body: ListBody<Order>)
    ensures Orders.TotalEarning(NormalizeLoaded(body)) == Orders.TotalEarning(ItemsOf(body))
  {
    Orders.TotalEarningIgnoresPositionAndStatus(NormalizeLoaded(body), ItemsOf(body));
  }

  /** Loading an already loaded list gives it back, unless some status was white
      space alone: that one normalised to "" and normalises again to PENDING. */
  lemma ReloadIsIdentity(body: ListBody<Order>)
    requires forall i :: 0 <= i < |ItemsOf(body)| ==> Normalize(ItemsOf(body)[i].status) != ""
    ensures NormalizeLoaded(ArrayBody(NormalizeLoaded(body))) == NormalizeLoaded(body)
  {
    var r := NormalizeLoaded(body);
    var r2 := NormalizeLoaded(ArrayBody(r));
    forall i | 0 <= i < |r|
      ensures r2[i] == r[i]
    {
      NormalizeIdempotent(ItemsOf(body)[i].status);
    }
  }

  /** The loading flags and the mount-time liveness flag of one mounted screen. */
  class OrdersLoad {
    /** The mount effect's `mounted` flag. */
    var mounted: bool
    var loading: bool
    var refreshing: bool

    constructor()
      ensures mounted && loading && !refreshing
    {
      mounted := true;
      loading := true;
      refreshing := false;
    }

    /** The mount effect's cleanup. */
    method Unmount()
      modifies this
      ensures !mounted && loading == old(loading) && refreshing == old(refreshing)
    {
      mounted := false;
    }

    /** The mount-time load settling: once unmounted nothing is dispatched and the
        flags stay; otherwise the orders or a toast are dispatched, whatever the
        error, and loading ends. */
    method OnMountLoadSettled(res: FetchResult) returns (actions: seq<AppStore.Action>)
      modifies this
      ensures !old(mounted) ==> actions == [] && loading == old(loading)
      ensures old(mounted) && res.Fetched? ==> actions == [AppStore.SetOrders(LoadedFromResponse(res.response))]
      ensures old(mounted) && res.FetchFailed? ==> actions == [AppStore.ShowToast(LoadFailedMessage)]
      ensures old(mounted) ==> !loading
      ensures mounted == old(mounted) && refreshing == old(refreshing)
    {
      actions := [];
      if !mounted {
        return;
      }
      match res {
        case Fetched(resp) =>
          actions := [AppStore.SetOrders(LoadedFromResponse(resp))];
        case FetchFailed(_) =>
          actions := [AppStore.ShowToast(LoadFailedMessage)];
      }
      loading := false;
    }

    /** Pull to refresh or the empty state's button. */
    method StartRefresh()
      modifies this
      ensures refreshing && mounted == old(mounted) && loading == old(loading)
    {
      refreshing := true;
    }

    /** `loadOrders` settling: it has no liveness check; a cancellation is silent,
        any other failure toasts, and both flags are cleared on every path. */
    method OnRefreshSettled(res: FetchResult) returns (actions: seq<AppStore.Action>)
      modifies this
      ensures res.Fetched? ==> actions == [AppStore.SetOrders(LoadedFromResponse(res.response))]
      ensures res.FetchFailed? && DeliveryUpload.IsCancellation(res.errorName) ==> actions == []
      ensures res.FetchFailed? && !DeliveryUpload.IsCancellation(res.errorName) ==>
        actions == [AppStore.ShowToast(RefreshFailedMessage)]
      ensures !loading && !refreshing && mounted == old(mounted)
    {
      match res {
        case Fetched(resp) =>
          actions := [AppStore.SetOrders(LoadedFromResponse(resp))];
        case FetchFailed(name) =>
          actions := if DeliveryUpload.IsCancellation(name) then [] else [AppStore.ShowToast(RefreshFailedMessage)];
      }
      loading := false;
      refreshing := false;
    }
  }

  /** The handlers' guard: the current status is normalised once more before the
      transition check. */
  predicate CanAccept(status: Option<string>) {
    CanTransition(Some(Normalize(status)), Some(Name(Accepted)))
  }

  predicate CanReject(status: Option<string>) {
    CanTransition(Some(Normalize(status)), Some(Name(Cancelled)))
  }

  /** What a tap on Accept or Reject does: a toast, an alert with nothing
      changed, or a new order list (and, for accept, the order opened). */
  datatype Outcome = OfflineToast | Blocked | Updated(orders: seq<Order>, detail: Option<Order>)

  /** `onAccept`. */
  function OnAccept(isOffline: bool, online: bool, orders: seq<Order>, order: Order): (r: Outcome)
    ensures r.OfflineToast? <==> isOffline
    ensures r.Blocked? <==> !isOffline && (!online || !CanAccept(order.status))
    ensures r.Updated? ==> r.detail == Some(order.(status := Some(Name(Accepted))))
    ensures r.Updated? ==> |r.orders| == |orders|
    ensures r.Updated? ==> forall i :: 0 <= i < |orders| && orders[i].id == order.id ==>
      r.orders[i] == orders[i].(status := Some(Name(Accepted)))
    ensures r.Updated? ==> forall i :: 0 <= i < |orders| && orders[i].id != order.id ==>
      r.orders[i] == orders[i]
  {
    if isOffline then OfflineToast
    else if !online || !CanAccept(order.status) then Blocked
    else Updated(Orders.SetStatusWhere(orders, order.id, Name(Accepted)),
                 Some(order.(status := Some(Name(Accepted)))))
  }

  /** `onReject`: no online check, and no renumbering after the removal. */
  function OnReject(isOffline: bool, orders: seq<Order>, order: Order): (r: Outcome)
    ensures r.OfflineToast? <==> isOffline
    ensures r.Blocked? <==> !isOffline && !CanReject(order.status)
    ensures r.Updated? ==> r.detail == None
    ensures r.Updated? ==> forall i :: 0 <= i < |r.orders| ==> r.orders[i].id != order.id
    ensures r.Updated? ==> forall i :: 0 <= i < |orders| && orders[i].id != order.id ==> orders[i] in r.orders
    ensures r.Updated? ==> Lists.IsSubseq(r.orders, orders)
    ensures r.Updated? ==> forall o :: multiset(r.orders)[o] == if o.id != order.id then multiset(orders)[o] else 0
  {
    if isOffline then OfflineToast
    else if !CanReject(order.status) then Blocked
    else Updated(Orders.WithoutId(orders, order.id), None)
  }

  /** The guard accepts exactly the acceptable statuses, read after normalising
      twice. */
  lemma CanAcceptIff(status: Option<string>)
    ensures CanAccept(status) <==> Parse(Normalize(Some(Normalize(status)))) in [Some(Assigned), Some(Pending)]
  {
    AcceptableIffCanAccept(Some(Normalize(status)));
  }

  /** Every status except DELIVERED and CANCELLED (and unknown words) may be
      rejected. */
  lemma CanRejectIff(status: Option<string>)
    ensures CanReject(status) <==>
      Parse(Normalize(Some(Normalize(status)))).Some? && !Terminal(Parse(Normalize(Some(Normalize(status)))).value)
  {
    var p := Parse(Normalize(Some(Normalize(status))));
    ParseNormalizeName(Cancelled);
    if p.Some? {
      TerminalStatuses(p.value, Some(Name(Cancelled)));
    }
  }

  /** Every order that may be accepted may also be rejected. */
  lemma AcceptableIsRejectable(status: Option<string>)
    ensures CanAccept(status) ==> CanReject(status)
  {
    CanAcceptIff(status);
    CanRejectIff(status);
  }

  /** `acceptDisabled` on each card: the guard here reads the raw status. */
  predicate AcceptDisabled(isOffline: bool, online: bool, item: Order) {
    isOffline || !online || !CanTransition(item.status, Some(Name(Accepted)))
  }

  /** The card's button and the handler agree, except on a status of white space
      alone: the button reads it as "" and is disabled, while the handler
      normalises it again to PENDING and lets the accept through. */
  lemma ButtonAgreesWithHandler(status: Option<string>)
    ensures Normalize(status) != "" ==>
      (CanAccept(status) <==> CanTransition(status, Some(Name(Accepted))))
    ensures Normalize(status) == "" ==>
      CanAccept(status) && !CanTransition(status, Some(Name(Accepted)))
  {
    if Normalize(status) != "" {
      NormalizeIdempotent(status);
    } else {
      BlankStatusAccepted(status);
    }
  }

  lemma BlankStatusAccepted(status: Option<string>)
    requires Normalize(status) == ""
    ensures CanAccept(status) && !CanTransition(status, Some(Name(Accepted)))
  {
    assert Normalize(Some(Normalize(status))) == Name(Pending);
    ParseNormalizeName(Pending);
    ParseNormalizeName(Accepted);
    assert Parse(Normalize(status)) == None;
  }

  /** After an accept the accepted orders show a disabled button (ACCEPTED cannot
      move to ACCEPTED), the list stays contiguous when it was, and the total is
      unchanged. */
  lemma AcceptedStaysAccepted(online: bool, orders: seq<Order>, order: Order)
    requires OnAccept(false, online, orders, order).Updated?
    ensures var next := OnAccept(false, online, orders, order).orders;
      && (forall i :: 0 <= i < |next| && next[i].id == order.id ==> AcceptDisabled(false, online, next[i]))
      && (Orders.Contiguous(orders) ==> Orders.Contiguous(next))
      && Orders.TotalEarning(next) == Orders.TotalEarning(orders)
  {
    var next := OnAccept(false, online, orders, order).orders;
    NoSelfLoop(Some(Name(Accepted)));
    Orders.TotalEarningIgnoresPositionAndStatus(next, orders);
  }

  /** After a reject no order with that id is left, the total does not grow, and
      re-rejecting changes nothing more. */
  lemma RejectRemoves(orders: seq<Order>, order: Order)
    requires OnReject(false, orders, order).Updated?
    ensures var next := OnReject(false, orders, order).orders;
      && Orders.TotalEarning(next) <= Orders.TotalEarning(orders)
      && Orders.WithoutId(next, order.id) == next
  {
    var next := OnReject(false, orders, order).orders;
    Orders.TotalEarningOfSubseq(next, orders);
    Orders.WithoutAbsentId(next, order.id);
  }

  /** Drag end: the reordered list renumbered keeps what it earns. */
  lemma DragEndKeepsTotal(data: seq<Order>)
    ensures Orders.Contiguous(Orders.Renumber(data))
    ensures Orders.TotalEarning(Orders.Renumber(data)) == Orders.TotalEarning(data)
    ensures forall i :: 0 <= i < |data| ==> Orders.Renumber(data)[i].id == data[i].id
  {
    Orders.TotalEarningIgnoresPositionAndStatus(Orders.Renumber(data), data);
  }

  /** The online pill toggles the flag: tapping twice restores it. */
  function ToggleOnline(online: bool): AppStore.Action {
    AppStore.SetOnline(!online)
  }

  lemma ToggleTwice(s: AppStore.State)
    ensures var t := AppStore.Reduce(s, ToggleOnline(s.online));
      t.online == !s.online && AppStore.Reduce(t, ToggleOnline(t.online)) == s
  {
  }

  /** The shift clock's hours and minutes. */
  datatype Clock = Clock(hours: nat, minutes: nat)

  /** `shiftText`: whole hours, then whole minutes of the rest. */
  function ShiftText(shiftSeconds: nat): (c: Clock)
    ensures c.minutes < 60
    ensures c.hours * 3600 + c.minutes * 60 <= shiftSeconds < c.hours * 3600 + c.minutes * 60 + 60
  {
    Clock(shiftSeconds / 3600, (shiftSeconds % 3600) / 60)
  }
}

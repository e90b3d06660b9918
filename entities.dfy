/**
 * The records the screens and the store pass around. Fields the model never
 * inspects (pickup and drop addresses, customer names, timestamps) travel in
 * `details` so that "every other field is preserved" can be stated.
 */
module Entities {
  import opened Wrappers

  datatype Priority = High | Medium | Low

  /** An assigned order as the backend sends it, plus the fields the dashboards add. */
  datatype Order = Order(
    id: string,
    status: Option<string>,
    queuePosition: Option<int>,
    earning: Option<nat>,
    payout: Option<nat>,
    priority: Option<Priority>,
    deadline: Option<int>,
    details: map<string, string>)

  /** One row of the earnings history. */
  datatype ActivityItem = ActivityItem(
    id: Option<string>,
    orderId: Option<string>,
    earning: Option<nat>,
    amount: Option<nat>,
    details: map<string, string>)

  /** The rider profile returned by the backend. */
  datatype Profile = Profile(
    name: Option<string>,
    phone: Option<string>,
    vehicle: Option<string>,
    vehicleNumber: Option<string>)

  /** The earnings summary, kept as named amounts. */
  datatype Summary = Summary(amounts: map<string, int>)

  /** A list endpoint's response body: a bare array, an object that may carry an
      `items` array, or nothing at all. */
  datatype ListBody<T> = ArrayBody(elements: seq<T>) | ObjectBody(items: Option<seq<T>>) | NoBody

  /** `Array.isArray(res) ? res : res?.items || []`. */
  function ItemsOf<T>(body: ListBody<T>): (r: seq<T>)
    ensures body.ArrayBody? ==> r == body.elements
    ensures body.ObjectBody? && body.items.Some? ==> r == body.items.value
    ensures body.NoBody? || body == ObjectBody(None) ==> r == []
  {
    match body
    case ArrayBody(xs) => xs
    case ObjectBody(items) => items.GetOr([])
    case NoBody => []
  }

  /** JavaScript truthiness of an optional amount: absent and zero are falsy. */
  predicate Truthy(x: Option<nat>) { x.Some? && x.value != 0 }

  /** `Number(a || b || 0)` for two optional amounts. */
  function FirstTruthy(a: Option<nat>, b: Option<nat>): (r: nat)
    ensures Truthy(a) ==> r == a.value
    ensures !Truthy(a) && Truthy(b) ==> r == b.value
    ensures !Truthy(a) && !Truthy(b) ==> r == 0
  {
    if Truthy(a) then a.value else if Truthy(b) then b.value else 0
  }
}

/**
 * The global store: a record of slices and a reducer that answers each action
 * type with a fresh record in which one slice is replaced.
 *
 * The reducer as written has no network slice and no case for SET_OFFLINE, which
 * the connectivity monitor and the navigator dispatch; `Reduce` models it as
 * written and `ReduceWithNetwork` is the evidently intended store.
 */
module AppStore {
  import opened Wrappers
  import opened Entities

  datatype Auth = Auth(token: Option<string>, isLoggedIn: bool)

  /** A SET_AUTH payload: each key may be absent (outer `None`); a present token may
      be `null` (inner `None`). */
  datatype AuthPatch = AuthPatch(token: Option<Option<string>>, isLoggedIn: Option<bool>)

  datatype Rider = Rider(profile: Option<Profile>)

  datatype OrderList = OrderList(items: seq<Order>)

  datatype Earnings = Earnings(summary: Option<Summary>, activity: seq<ActivityItem>)

  datatype Toast = Toast(message: string)

  datatype State = State(
    auth: Auth,
    rider: Rider,
    orders: OrderList,
    earnings: Earnings,
    online: bool,
    themeMode: string,
    toast: Option<Toast>)

  datatype Action =
    | SetAuth(patch: AuthPatch)
    | SetProfile(profile: Option<Profile>)
    | SetOrders(orders: seq<Order>)
    | SetEarningsActivity(activity: seq<ActivityItem>)
    | SetEarningsSummary(summary: Option<Summary>)
    | SetOnline(online: bool)
    | SetThemeMode(mode: string)
    | ShowToast(message: string)
    | ClearToast
    | SetOffline(isOffline: bool)
    | Other(typeName: string)

  /** The top-level slices of the state. */
  datatype Slice = AuthSlice | RiderSlice | OrdersSlice | EarningsSlice | OnlineSlice | ThemeSlice | ToastSlice

  /** The initial state; the theme follows the system colour scheme. */
  function InitialState(systemScheme: Option<string>): (s: State)
    ensures s.auth == Auth(None, false) && s.rider.profile == None
    ensures s.orders.items == [] && s.earnings == Earnings(None, [])
    ensures s.online && s.toast == None
    ensures s.themeMode == "dark" <==> systemScheme == Some("dark")
    ensures s.themeMode == "dark" || s.themeMode == "light"
  {
    State(Auth(None, false), Rider(None), OrderList([]), Earnings(None, []), true,
          if systemScheme == Some("dark") then "dark" else "light", None)
  }

  /** The reducer as written: a closed switch whose default returns the state.
      Every recognised action changes its own top-level slice and no other; an
      action without a case, SET_OFFLINE among them, changes nothing. */
  function Reduce(s: State, a: Action): (t: State)
    ensures Recognised(a) ==> SameExcept(s, t, SliceOf(a))
    ensures !Recognised(a) ==> t == s
  {
    match a
    case SetAuth(p) =>
      s.(auth := Auth(if p.token.Some? then p.token.value else s.auth.token,
                      if p.isLoggedIn.Some? then p.isLoggedIn.value else s.auth.isLoggedIn))
    case SetProfile(profile) => s.(rider := s.rider.(profile := profile))
    case SetOrders(items) => s.(orders := s.orders.(items := items))
    case SetEarningsActivity(activity) => s.(earnings := s.earnings.(activity := activity))
    case SetEarningsSummary(summary) => s.(earnings := s.earnings.(summary := summary))
    case SetOnline(online) => s.(online := online)
    case SetThemeMode(mode) => s.(themeMode := mode)
    case ShowToast(message) => s.(toast := Some(Toast(message)))
    case ClearToast => s.(toast := None)
    case SetOffline(_) => s
    case Other(_) => s
  }

  /** Whether an action has a case in the switch. */
  predicate Recognised(a: Action) { !a.SetOffline? && !a.Other? }

  /** The slice a recognised action writes. */
  function SliceOf(a: Action): Slice
    requires Recognised(a)
  {
    match a
    case SetAuth(_) => AuthSlice
    case SetProfile(_) => RiderSlice
    case SetOrders(_) => OrdersSlice
    case SetEarningsActivity(_) => EarningsSlice
    case SetEarningsSummary(_) => EarningsSlice
    case SetOnline(_) => OnlineSlice
    case SetThemeMode(_) => ThemeSlice
    case ShowToast(_) => ToastSlice
    case ClearToast => ToastSlice
  }

  /** Two states agree on every slice except possibly `except`. */
  predicate SameExcept(s: State, t: State, except: Slice) {
    && (except != AuthSlice ==> s.auth == t.auth)
    && (except != RiderSlice ==> s.rider == t.rider)
    && (except != OrdersSlice ==> s.orders == t.orders)
    && (except != EarningsSlice ==> s.earnings == t.earnings)
    && (except != OnlineSlice ==> s.online == t.online)
    && (except != ThemeSlice ==> s.themeMode == t.themeMode)
    && (except != ToastSlice ==> s.toast == t.toast)
  }

  /** SET_AUTH merges: present keys override and absent keys are kept. */
  lemma SetAuthMerges(s: State, p: AuthPatch)
    ensures var t := Reduce(s, SetAuth(p));
      && (p.token.Some? ==> t.auth.token == p.token.value)
      && (p.token.None? ==> t.auth.token == s.auth.token)
      && (p.isLoggedIn.Some? ==> t.auth.isLoggedIn == p.isLoggedIn.value)
      && (p.isLoggedIn.None? ==> t.auth.isLoggedIn == s.auth.isLoggedIn)
  {
  }

  /** The two earnings actions each replace only their own field, and SET_ORDERS
      replaces the order list. */
  lemma EarningsFieldsIndependent(s: State, activity: seq<ActivityItem>, summary: Option<Summary>, items: seq<Order>)
    ensures Reduce(s, SetEarningsActivity(activity)).earnings == Earnings(s.earnings.summary, activity)
    ensures Reduce(s, SetEarningsSummary(summary)).earnings == Earnings(summary, s.earnings.activity)
    ensures Reduce(s, SetOrders(items)).orders.items == items
  {
  }

  /** SHOW_TOAST then CLEAR_TOAST leaves no toast, and SHOW_TOAST shows its payload. */
  lemma ShowThenClearToast(s: State, message: string)
    ensures Reduce(s, ShowToast(message)).toast == Some(Toast(message))
    ensures Reduce(Reduce(s, ShowToast(message)), ClearToast).toast == None
  {
  }

  /** Dispatching the same action twice is dispatching it once. */
  lemma ReduceIdempotent(s: State, a: Action)
    ensures Reduce(Reduce(s, a), a) == Reduce(s, a)
  {
  }

  /** The two themes the provider chooses between. */
  datatype Theme = LightTheme | DarkTheme

  /** The provider's theme: dark exactly when the mode is "dark". */
  function ThemeFor(s: State): (t: Theme)
    ensures t == DarkTheme <==> s.themeMode == "dark"
  {
    if s.themeMode == "dark" then DarkTheme else LightTheme
  }

  /** As written, SET_OFFLINE is dropped: whatever the monitor reports, the state
      is the one before the dispatch, and an offline report and an online report
      leave the same state, so no field records which one was made. */
  lemma SetOfflineIgnored(s: State, isOffline: bool)
    ensures Reduce(s, SetOffline(isOffline)) == s
    ensures Reduce(s, SetOffline(true)) == Reduce(s, SetOffline(false))
  {
  }

  // ------------------------------------------------------------ intended store

  datatype Network = Network(isOffline: bool)

  /** The state with the network slice the screens read. */
  datatype FullState = FullState(core: State, network: Network)

  function InitialFullState(systemScheme: Option<string>): (s: FullState)
    ensures s.core == InitialState(systemScheme) && !s.network.isOffline
  {
    FullState(InitialState(systemScheme), Network(false))
  }

  /** The reducer with a SET_OFFLINE case writing the network slice. */
  function ReduceWithNetwork(s: FullState, a: Action): (t: FullState)
    ensures a.SetOffline? ==> t == FullState(s.core, Network(a.isOffline))
    ensures !a.SetOffline? ==> t == FullState(Reduce(s.core, a), s.network)
  {
    match a
    case SetOffline(b) => s.(network := Network(b))
    case _ => s.(core := Reduce(s.core, a))
  }

  /** With the network slice, the last SET_OFFLINE dispatched is what the screens
      read, and no other action touches it. */
  lemma {:induction false} OfflineFollowsLastReport(s: FullState, actions: seq<Action>, b: bool)
    requires actions != [] && actions[|actions| - 1] == SetOffline(b)
    ensures ReduceAll(s, actions).network.isOffline == b
  {
    var n := |actions| - 1;
    assert actions == actions[..n] + [actions[n]];
    ReduceAllSnoc(s, actions[..n], actions[n]);
  }

  /** Folding one more action is one more reducer step. */
  lemma {:induction false} ReduceAllSnoc(s: FullState, actions: seq<Action>, a: Action)
    ensures ReduceAll(s, actions + [a]) == ReduceWithNetwork(ReduceAll(s, actions), a)
    decreases |actions|
  {
    if actions == [] {
      assert actions + [a] == [a];
    } else {
      assert (actions + [a])[1..] == actions[1..] + [a];
      ReduceAllSnoc(ReduceWithNetwork(s, actions[0]), actions[1..], a);
    }
  }

  /** Folding a sequence of dispatches. */
  function ReduceAll(s: FullState, actions: seq<Action>): FullState
    decreases |actions|
  {
    if actions == [] then s else ReduceAll(ReduceWithNetwork(s, actions[0]), actions[1..])
  }

  /** Actions other than SET_OFFLINE never change the network slice. */
  lemma {:induction false} OthersKeepNetwork(s: FullState, actions: seq<Action>)
    requires forall i :: 0 <= i < |actions| ==> !actions[i].SetOffline?
    ensures ReduceAll(s, actions).network == s.network
    decreases |actions|
  {
    if actions != [] {
      OthersKeepNetwork(ReduceWithNetwork(s, actions[0]), actions[1..]);
    }
  }
}

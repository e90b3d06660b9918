/**
 * The root navigator: which stack is shown, the start-up hydration from
 * storage, the session helpers, and the three callbacks it registers with the
 * HTTP client and how it answers each of them.
 *
 * Storage reads and the profile request are inputs; storage writes are left
 * out (their failures are swallowed). The store is the reducer as written.
 */
module Navigator {
  import opened Wrappers
  import opened Entities
  import AppStore
  import ApiClient

  /** The ids under which the navigator registers its callbacks. */
  const UnauthorizedCallback: nat := 1
  const ApiErrorCallback: nat := 2
  const NetworkCallback: nat := 3

  datatype Root = IntroRoot | RiderRoot | AuthRoot

  /** The stack under the navigation container. */
  function RootStack(hasSeenIntro: bool, isLoggedIn: bool): (r: Root)
    ensures r == IntroRoot <==> !hasSeenIntro
    ensures r == RiderRoot <==> hasSeenIntro && isLoggedIn
    ensures r == AuthRoot <==> hasSeenIntro && !isLoggedIn
  {
    if !hasSeenIntro then IntroRoot else if isLoggedIn then RiderRoot else AuthRoot
  }

  /** The intro counts as seen only for the stored text "true". */
  predicate IntroSeen(flag: Option<string>) {
    flag == Some("true")
  }

  /** The two storage reads, or their joint failure. */
  datatype StorageRead = Read(introDone: Option<string>, token: Option<string>) | ReadFailed

  datatype ProfileResult = ProfileLoaded(profile: Option<Profile>) | ProfileFailed

  /** The SET_AUTH payloads of logout and login. */
  const LoggedOut := AppStore.AuthPatch(Some(None), Some(false))

  function LoggedIn(token: string): AppStore.AuthPatch {
    AppStore.AuthPatch(Some(Some(token)), Some(true))
  }

  /** The error callback's toast: none for a 401 (the unauthorized callback
      handles it) or an empty message. */
  function ApiErrorToast(e: ApiClient.ApiError): (t: Option<string>)
    ensures t.None? <==> e.status == Some(401) || e.message == ""
    ensures t.Some? ==> t.value == e.message
  {
    if e.status == Some(401) || e.message == "" then None else Some(e.message)
  }

  /** Every failed request other than a 401 ends in a toast, since the normalised
      message is never empty; a 401 ends in the unauthorized callback instead. */
  lemma EveryFailureIsReported(f: ApiClient.Failure)
    ensures var e := ApiClient.NormalizeApiError(f);
      && (ApiErrorToast(e).Some? <==> f.status != Some(401))
      && (f.status == Some(401) ==>
            ApiClient.CallUnauthorized(UnauthorizedCallback)
              in ApiClient.ErrorCalls(Some(UnauthorizedCallback), Some(ApiErrorCallback), Some(NetworkCallback), e))
  {
  }

  class Navigator {
    var hasSeenIntro: bool
    var isHydrating: bool
    var store: AppStore.State
    /** Every action dispatched, in order. */
    var dispatched: seq<AppStore.Action>
    var alerts: seq<string>
    /** The HTTP client's module state. */
    const client: ApiClient.Client

    constructor(systemScheme: Option<string>)
      ensures !hasSeenIntro && isHydrating
      ensures store == AppStore.InitialState(systemScheme) && dispatched == [] && alerts == []
      ensures fresh(client) && client.authToken == None
      ensures client.unauthorizedHandler == None && client.apiErrorHandler == None
      ensures client.networkStatusHandler == None
    {
      hasSeenIntro := false;
      isHydrating := true;
      store := AppStore.InitialState(systemScheme);
      dispatched := [];
      alerts := [];
      client := new ApiClient.Client();
    }

    function Shown(): Root
      reads this
    {
      RootStack(hasSeenIntro, store.auth.isLoggedIn)
    }

    method Dispatch(a: AppStore.Action)
      modifies this
      ensures store == AppStore.Reduce(old(store), a) && dispatched == old(dispatched) + [a]
      ensures hasSeenIntro == old(hasSeenIntro) && isHydrating == old(isHydrating) && alerts == old(alerts)
    {
      store := AppStore.Reduce(store, a);
      dispatched := dispatched + [a];
    }

    /** `clearSession`: drop the client's token and log out in the store. */
    method ClearSession()
      modifies this, client
      ensures client.authToken == None
      ensures store == AppStore.Reduce(old(store), AppStore.SetAuth(LoggedOut))
      ensures store.auth == AppStore.Auth(None, false)
      ensures dispatched == old(dispatched) + [AppStore.SetAuth(LoggedOut)]
      ensures hasSeenIntro == old(hasSeenIntro) && isHydrating == old(isHydrating) && alerts == old(alerts)
      ensures client.unauthorizedHandler == old(client.unauthorizedHandler)
      ensures client.apiErrorHandler == old(client.apiErrorHandler)
      ensures client.networkStatusHandler == old(client.networkStatusHandler)
    {
      client.SetAuthToken(None);
      Dispatch(AppStore.SetAuth(LoggedOut));
    }

    /** `hydrate`: read the intro flag and the token; with a truthy token restore
        the session from the profile, or clear it when the profile request fails.
        A failed read escapes the outer `try` and only clears the spinner. */
    method Hydrate(read: StorageRead, profile: ProfileResult)
      modifies this, client
      ensures !isHydrating && alerts == old(alerts)
      ensures read.ReadFailed? ==> hasSeenIntro == old(hasSeenIntro) && store == old(store)
      ensures read.ReadFailed? ==> dispatched == old(dispatched) && client.authToken == old(client.authToken)
      ensures read.Read? ==> hasSeenIntro == IntroSeen(read.introDone)
      ensures read.Read? && !TextTruthy(read.token) ==>
        store == old(store) && dispatched == old(dispatched) && client.authToken == old(client.authToken)
      ensures read.Read? && TextTruthy(read.token) && profile.ProfileLoaded? ==>
        && client.authToken == read.token
        && dispatched == old(dispatched) + [AppStore.SetProfile(profile.profile), AppStore.SetAuth(LoggedIn(read.token.value))]
        && store.auth == AppStore.Auth(read.token, true) && store.rider.profile == profile.profile
      ensures read.Read? && TextTruthy(read.token) && profile.ProfileFailed? ==>
        && client.authToken == None
        && dispatched == old(dispatched) + [AppStore.SetAuth(LoggedOut)]
        && store.auth == AppStore.Auth(None, false)
      ensures client.unauthorizedHandler == old(client.unauthorizedHandler)
      ensures client.apiErrorHandler == old(client.apiErrorHandler)
      ensures client.networkStatusHandler == old(client.networkStatusHandler)
    {
      if read.Read? {
        hasSeenIntro := IntroSeen(read.introDone);
        if TextTruthy(read.token) {
          var token := read.token.value;
          client.SetAuthToken(Some(token));
          match profile {
            case ProfileLoaded(p) =>
              Dispatch(AppStore.SetProfile(p));
              Dispatch(AppStore.SetAuth(LoggedIn(token)));
            case ProfileFailed =>
              ClearSession();
          }
        }
      }
      isHydrating := false;
    }

    /** The handler effect: register the three callbacks. */
    method RegisterCallbacks()
      modifies client
      ensures client.unauthorizedHandler == Some(UnauthorizedCallback)
      ensures client.apiErrorHandler == Some(ApiErrorCallback)
      ensures client.networkStatusHandler == Some(NetworkCallback)
      ensures client.authToken == old(client.authToken)
    {
      client.SetUnauthorizedHandler(Some(UnauthorizedCallback));
      client.SetApiErrorHandler(Some(ApiErrorCallback));
      client.SetNetworkStatusHandler(Some(NetworkCallback));
    }

    /** The handler effect's cleanup: all three are reset. */
    method UnregisterCallbacks()
      modifies client
      ensures client.unauthorizedHandler == None && client.apiErrorHandler == None
      ensures client.networkStatusHandler == None
      ensures client.authToken == old(client.authToken)
    {
      client.SetUnauthorizedHandler(None);
      client.SetApiErrorHandler(None);
      client.SetNetworkStatusHandler(None);
    }

    /** Running one callback the client fired. The unauthorized callback logs out
        and toasts; the error callback toasts and alerts unless it ignores the
        error; the network callback dispatches SET_OFFLINE, which the reducer as
        written drops. */
    method OnCallback(call: ApiClient.Invocation)
      modifies this, client
      ensures call.CallUnauthorized? ==>
        && client.authToken == None
        && dispatched == old(dispatched) + [AppStore.SetAuth(LoggedOut), AppStore.ShowToast(ApiClient.SessionExpired)]
        && store.auth == AppStore.Auth(None, false)
        && store.toast == Some(AppStore.Toast(ApiClient.SessionExpired))
        && alerts == old(alerts)
      ensures call.CallApiError? && ApiErrorToast(call.error).None? ==>
        dispatched == old(dispatched) && store == old(store) && alerts == old(alerts)
      ensures call.CallApiError? && ApiErrorToast(call.error).Some? ==>
        && dispatched == old(dispatched) + [AppStore.ShowToast(call.error.message)]
        && store.toast == Some(AppStore.Toast(call.error.message))
        && alerts == old(alerts) + [call.error.message]
      ensures call.CallNetworkStatus? ==>
        && dispatched == old(dispatched) + [AppStore.SetOffline(!call.isOnline)]
        && store == old(store) && alerts == old(alerts)
      ensures !call.CallUnauthorized? ==> client.authToken == old(client.authToken)
      ensures hasSeenIntro == old(hasSeenIntro) && isHydrating == old(isHydrating)
      ensures client.unauthorizedHandler == old(client.unauthorizedHandler)
      ensures client.apiErrorHandler == old(client.apiErrorHandler)
      ensures client.networkStatusHandler == old(client.networkStatusHandler)
    {
      match call {
        case CallUnauthorized(_) =>
          ClearSession();
          Dispatch(AppStore.ShowToast(ApiClient.SessionExpired));
        case CallApiError(_, e) =>
          var toast := ApiErrorToast(e);
          if toast.Some? {
            Dispatch(AppStore.ShowToast(toast.value));
            alerts := alerts + [toast.value];
          }
        case CallNetworkStatus(_, isOnline) =>
          Dispatch(AppStore.SetOffline(!isOnline));
      }
    }

    /** `completeIntro`: the flag is written (failures ignored) and set. */
    method CompleteIntro()
      modifies this
      ensures hasSeenIntro
      ensures store == old(store) && dispatched == old(dispatched)
      ensures isHydrating == old(isHydrating) && alerts == old(alerts)
    {
      hasSeenIntro := true;
    }

    /** `handleLogin`: the token is stored (failures ignored), handed to the
        client, and the store logs in. */
    method HandleLogin(token: string)
      modifies this, client
      ensures client.authToken == Some(token)
      ensures dispatched == old(dispatched) + [AppStore.SetAuth(LoggedIn(token))]
      ensures store.auth == AppStore.Auth(Some(token), true)
      ensures hasSeenIntro == old(hasSeenIntro) && isHydrating == old(isHydrating) && alerts == old(alerts)
      ensures client.unauthorizedHandler == old(client.unauthorizedHandler)
      ensures client.apiErrorHandler == old(client.apiErrorHandler)
      ensures client.networkStatusHandler == old(client.networkStatusHandler)
    {
      client.SetAuthToken(Some(token));
      Dispatch(AppStore.SetAuth(LoggedIn(token)));
    }
  }

  /** A returning rider: a stored token and a loaded profile open the rider
      stack; a later 401 fires the unauthorized callback, which returns the app to
      the login stack with the token dropped. */
  method SessionLifecycle(token: string, profile: Option<Profile>, f: ApiClient.Failure)
      returns (afterStart: Root, afterExpiry: Root)
    requires token != "" && f.status == Some(401)
    ensures afterStart == RiderRoot && afterExpiry == AuthRoot
  {
    var nav := new Navigator(None);
    nav.RegisterCallbacks();
    nav.Hydrate(Read(Some("true"), Some(token)), ProfileLoaded(profile));
    afterStart := nav.Shown();
    var calls, rejected := nav.client.InterceptError(f);
    assert calls[0] == ApiClient.CallUnauthorized(UnauthorizedCallback);
    nav.OnCallback(calls[0]);
    afterExpiry := nav.Shown();
  }

  /** A profile request that fails at start-up leaves the rider on the login
      stack, and an unreadable storage leaves the intro showing. */
  method FailedStarts(token: string) returns (profileFails: Root, storageFails: Root)
    requires token != ""
    ensures profileFails == AuthRoot && storageFails == IntroRoot
  {
    var nav := new Navigator(None);
    nav.Hydrate(Read(Some("true"), Some(token)), ProfileFailed);
    profileFails := nav.Shown();
    var nav2 := new Navigator(None);
    nav2.Hydrate(ReadFailed, ProfileFailed);
    storageFails := nav2.Shown();
  }
}

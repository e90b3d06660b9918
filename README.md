# Rider app core, modelled in Dafny

This project models the logic of a React Native delivery-rider app and proves
properties about that model. The modelled logic covers:

- the order-status vocabulary and transition table, and the status badge;
- the HTTP client's error normalisation, interceptors and callback registry;
- the reducer-based app store;
- the network-status hook and the delivery-proof upload hook;
- the two order dashboards, the earnings activity list and the delivery confirmation screen;
- the root navigator's hydration and session handling;
- the bank-account list and its add/edit form;
- the login, OTP, profile-editing, intro and payout screens;
- the auth context.

Pure code becomes datatypes, functions and lemmas. State that the source
updates in place becomes a class whose methods name what they modify:

- the HTTP client's module variables;
- the hook and screen state (`useState`, refs, `mounted` flags);
- the navigator's store and dispatch log.

The model treats every request, storage read, picker result, permission
answer and clock reading as an input. Offline status is also an input, for
the reason given under Findings.

Modules:

- **Shared:** `Wrappers`, `Text`, `Lists`, `Entities`.
- **One per source file:** `OrderStatus`, `ApiClient`, `AppStore`, `NetworkMonitor`, `DeliveryUpload`, `Orders` (shared list transforms), `Dashboard`, `RiderDashboard`, `Activity`, `DeliveryProof`, `Navigator`, `BankAccounts`, `AddBankAccount`, `RiderLogin`, `RiderOtp`, `EditProfile`, `Intro`, `Payout`, `AuthContext`, `StatusBadge`.

Where a description and the code differ, the model follows the code:

- The error normaliser's canned-message order is 401, 403, ≥ 500, network error, then the generic message.
- A failure is a network error when its status is absent or 0, or its code is `ERR_NETWORK`, or its message is "Network Error". The last two apply even when a status is present.

## Model

| member | source | states |
|---|---|---|
| OrderStatus.Parse | src/constants/orderStatus.js:1-8 | a text parses to a status exactly when it is that status's name, and to nothing when no status has it as name |
| OrderStatus.Normalize | src/constants/orderStatus.js:21-24 | the result has no white space and no lower-case letter; a missing or empty status gives PENDING |
| OrderStatus.NormalizeName | src/constants/orderStatus.js:21-24 | every canonical status name normalises to itself |
| OrderStatus.NormalizeIdempotent | src/constants/orderStatus.js:23 | normalising a non-empty normal form again changes nothing |
| OrderStatus.NormalizeIgnoresCase | src/constants/orderStatus.js:23 | lower-casing the input does not change the normal form |
| OrderStatus.NormalizeIgnoresOuterSpace | src/constants/orderStatus.js:23 | white space around a non-empty status does not change the normal form |
| OrderStatus.NormalizeOfBlank | src/constants/orderStatus.js:22-23 | a non-empty all-white-space status normalises to "", which is no status |
| OrderStatus.NormalizeExamples | src/constants/orderStatus.js:21-22 | a missing or empty status normalises to "PENDING" |
| OrderStatus.NormalizeTwoWords | src/constants/orderStatus.js:23 | two words separated by any run of white space become both words upper-cased and joined by one "_" |
| OrderStatus.NormalizeUnknown | src/constants/orderStatus.js:23 | a single word that names no status normalises to itself upper-cased, which parses to no status |
| OrderStatus.ParseNormalizeName | src/constants/orderStatus.js:21-24 | a status name survives normalisation and parses back to that status |
| OrderStatus.NoSelfLoop | src/constants/orderStatus.js:26-39 | no status can transition to itself |
| OrderStatus.TerminalStatuses | src/constants/orderStatus.js:26-33 | exactly DELIVERED and CANCELLED have no outgoing transition; every other status can reach CANCELLED |
| OrderStatus.Targets | src/constants/orderStatus.js:26-33 | no status lists itself or ASSIGNED or PENDING; a non-empty list has two entries and ends with CANCELLED |
| OrderStatus.Terminal | src/constants/orderStatus.js:26-33 | a status has no targets exactly when it is DELIVERED or CANCELLED |
| OrderStatus.CanTransition | src/constants/orderStatus.js:35-39 | an allowed move has two known ends that differ, starts from a non-terminal status and never leads back to ASSIGNED or PENDING |
| OrderStatus.UnknownCurrentBlocks | src/constants/orderStatus.js:38 | a current status that is not a key of the table allows no transition |
| OrderStatus.CanTransitionIgnoresCase | src/constants/orderStatus.js:35-38 | lower-casing either argument does not change the answer |
| OrderStatus.CanTransitionIgnoresOuterSpace | src/constants/orderStatus.js:35-38 | white space around either non-empty argument does not change the answer |
| OrderStatus.AllowsAccept | src/constants/orderStatus.js:10-28 | a parsed status can move to ACCEPTED exactly when it is one of the acceptable statuses |
| OrderStatus.AcceptableIffCanAccept | src/constants/orderStatus.js:10-38 | a status can move to ACCEPTED exactly when its normal form is ASSIGNED or PENDING |
| OrderStatus.AllowsDeliver | src/constants/orderStatus.js:30 | only PICKED_UP can move to DELIVERED |
| OrderStatus.OnlyPickedUpDelivers | src/constants/orderStatus.js:30-38 | a raw status can move to DELIVERED exactly when it normalises to PICKED_UP |
| OrderStatus.NormalizeMixedCasePending | src/constants/orderStatus.js:23 | the dashboard default "Pending" normalises to the PENDING status |
| OrderStatus.AcceptBeforeDeliver | src/constants/orderStatus.js:27-30 | a pending order must be accepted and picked up before it can be delivered |
| OrderStatus.PendingMayOnlyBeAccepted | src/constants/orderStatus.js:27-30 | a pending order, written in any case, may be accepted and may not be delivered |
| OrderStatus.AcceptedMustBePickedUp | src/constants/orderStatus.js:27-30 | an accepted order may be picked up and not delivered; a picked-up order may be delivered |
| Text.Trim | src/constants/orderStatus.js:23 | the result has no white space at either end |
| Text.TrimIgnoresOuterSpace | src/constants/orderStatus.js:23 | trimming ignores white space added at either end |
| Text.CollapseSpace | src/constants/orderStatus.js:23 | the result has no white space, and each character is a "_" or comes from the input |
| Text.CollapseStep | src/constants/orderStatus.js:23 | a space-free prefix is kept, the maximal white-space run after it becomes one "_", and the rest is replaced alike; with CollapseOfNoSpace this fixes the result on every input |
| Text.CollapseJoin | src/constants/orderStatus.js:23 | two space-free words around a white-space run are joined by one "_" |
| Text.CollapseIdempotent | src/constants/orderStatus.js:23 | replacing twice is replacing once |
| Text.UnderscoresToSpaces | src/components/StatusBadge.js:13 | the same length; each "_" becomes " " and every other character is kept in place |
| Text.UnderscoresOfNone | src/components/StatusBadge.js:13 | text without "_" is shown unchanged |
| Text.UnderscoresConcat | src/components/StatusBadge.js:13 | the replacement works piece by piece over a concatenation |
| ApiClient.CannedMessage | src/api/riderApi.js:97-109 | each canned message is chosen exactly in its case of the if-chain: 401, 403, ≥ 500, network, otherwise |
| ApiClient.NormalizeApiError | src/api/riderApi.js:91-112 | keeps the status and the raw error; network error iff no status, code ERR_NETWORK or message "Network Error"; the message is never empty, and a backend message wins over every canned one |
| ApiClient.ServerStatusBeatsNetworkCode | src/api/riderApi.js:93-102 | a status ≥ 500 with code ERR_NETWORK is a network error but gets the server message |
| ApiClient.NoResponseIsOffline | src/api/riderApi.js:93-104 | a failure without a response is a network error with the offline message unless the backend sent one |
| ApiClient.RiderPath | src/api/riderApi.js:50-52 | the path is the rider base followed by the given path |
| ApiClient.RiderPathInjective | src/api/riderApi.js:50-52 | different paths give different URLs |
| ApiClient.AsMultipartConfig | src/api/riderApi.js:54-62 | every other option and header is kept; Content-Type is forced to multipart/form-data |
| ApiClient.AsMultipartIdempotent | src/api/riderApi.js:54-62 | applying the multipart config twice is applying it once |
| ApiClient.ErrorCalls | src/api/riderApi.js:31-47 | unauthorized fires iff status 401, network(false) iff network error, the generic handler always and last, each only when registered |
| ApiClient.UnauthorizedOfflineFiresAll | src/api/riderApi.js:31-47 | one failure can fire all three handlers |
| ApiClient.Client.constructor | src/api/riderApi.js:6-9 | no token and no handlers |
| ApiClient.Client.SetAuthToken | src/api/riderApi.js:75-77 | replaces the token, nothing else |
| ApiClient.Client.SetUnauthorizedHandler | src/api/riderApi.js:79-81 | replaces that handler (None disables it), nothing else |
| ApiClient.Client.SetApiErrorHandler | src/api/riderApi.js:83-85 | replaces that handler, nothing else |
| ApiClient.Client.SetNetworkStatusHandler | src/api/riderApi.js:87-89 | replaces that handler, nothing else |
| ApiClient.Client.InterceptRequest | src/api/riderApi.js:16-22 | a truthy token sets Authorization to "Bearer " + token and keeps every other header; no token leaves the config untouched |
| ApiClient.Client.InterceptResponse | src/api/riderApi.js:24-30 | every success reports online to the network handler when one is registered |
| ApiClient.Client.InterceptError | src/api/riderApi.js:31-47 | fires the handlers of ErrorCalls for the normalised error and re-rejects the original error |
| AppStore.InitialState | src/store/AppStore.js:7-15 | logged out, no token or profile, no orders or activity, online, no toast; dark theme iff the system scheme is dark |
| AppStore.Reduce | src/store/AppStore.js:17-40 | each recognised action changes only its own top-level slice; an action with no case, SET_OFFLINE included, returns the state unchanged |
| AppStore.SetAuthMerges | src/store/AppStore.js:19-20 | SET_AUTH overrides the keys in the payload and keeps the others |
| AppStore.EarningsFieldsIndependent | src/store/AppStore.js:23-28 | SET_EARNINGS_ACTIVITY and SET_EARNINGS_SUMMARY each replace only their field; SET_ORDERS replaces the items |
| AppStore.ShowThenClearToast | src/store/AppStore.js:33-36 | SHOW_TOAST sets the message, and CLEAR_TOAST after it leaves no toast |
| AppStore.ReduceIdempotent | src/store/AppStore.js:17-40 | applying an action twice is applying it once |
| AppStore.ThemeFor | src/store/AppStore.js:47-49 | the dark theme exactly when the mode is "dark" |
| AppStore.SetOfflineIgnored | src/store/AppStore.js:17-40 | as written, SET_OFFLINE leaves the state as it was, and an offline and an online report leave the same state, so nothing records the report |
| AppStore.InitialFullState | src/store/AppStore.js:7-15 | the corrected store starts as the written one, online |
| AppStore.ReduceWithNetwork | src/store/AppStore.js:17-40 | the corrected reducer writes SET_OFFLINE to the network slice and handles every other action as written |
| AppStore.OfflineFollowsLastReport | src/hooks/useNetworkStatus.js:29-34 | with the corrected reducer, the offline flag is the payload of the last SET_OFFLINE dispatched |
| AppStore.ReduceAllSnoc | src/store/AppStore.js:17-40 | folding one more dispatch is one more reducer step |
| AppStore.OthersKeepNetwork | src/store/AppStore.js:19-36 | actions other than SET_OFFLINE never change the network slice |
| NetworkMonitor.IsOnline | src/hooks/useNetworkStatus.js:14 | online iff connected and reachability is not exactly false; unknown reachability counts as online |
| NetworkMonitor.Dedupe | src/hooks/useNetworkStatus.js:29-34 | never longer than the input, empty iff the input is, and ends with the input's last value |
| NetworkMonitor.DedupeNoAdjacent | src/hooks/useNetworkStatus.js:31 | the dispatched sequence never repeats a value twice in a row |
| NetworkMonitor.DedupeKeepsFirst | src/hooks/useNetworkStatus.js:24-33 | the first observation is always dispatched |
| NetworkMonitor.DedupeOfNoAdjacent | src/hooks/useNetworkStatus.js:29-34 | a sequence without adjacent repeats is dispatched as it is |
| NetworkMonitor.DedupeIdempotent | src/hooks/useNetworkStatus.js:29-34 | removing repeats twice is removing them once |
| NetworkMonitor.DedupeIsSubseq | src/hooks/useNetworkStatus.js:29-34 | what is dispatched is a subsequence of what was observed |
| NetworkMonitor.Monitor.constructor | src/hooks/useNetworkStatus.js:8-60 | the subscription is tried first, and polling starts only when it is unavailable |
| NetworkMonitor.Monitor.SafeSetOffline | src/hooks/useNetworkStatus.js:29-34 | dispatches iff mounted and the value differs from the last one; the dispatched log stays the observations without adjacent repeats |
| NetworkMonitor.Monitor.OnConnectivityEvent | src/hooks/useNetworkStatus.js:13-38 | an event hands the negation of the online value to the dedupe |
| NetworkMonitor.Monitor.OnProbe | src/hooks/useNetworkStatus.js:47-57 | a completed probe reports online, and any failure, the abort included, reports offline |
| NetworkMonitor.Monitor.Teardown | src/hooks/useNetworkStatus.js:40-65 | unmounts and stops both sources; nothing is dispatched by it |
| NetworkMonitor.LateProbeAfterTeardown | src/hooks/useNetworkStatus.js:30-65 | a probe settling after teardown dispatches nothing |
| NetworkMonitor.PollingScenario | src/hooks/useNetworkStatus.js:29-60 | probes that fail, fail, then succeed dispatch offline once and then online once |
| DeliveryUpload.ValidateAsset | src/hooks/useDeliveryProofUpload.js:9-53 | accepted iff the type starts with "image/" and the size (missing counts as 0) is at most 5 MiB |
| DeliveryUpload.SizeCapBoundary | src/hooks/useDeliveryProofUpload.js:9-47 | exactly 5 MiB passes, one byte more does not; a missing size passes and a missing type fails |
| DeliveryUpload.FirstAsset | src/hooks/useDeliveryProofUpload.js:61-85 | the first asset when the list is non-empty, otherwise none |
| DeliveryUpload.SelectionOutcome | src/hooks/useDeliveryProofUpload.js:61-85 | an asset is selected iff permission is granted, the picker was not cancelled and the first asset validates |
| DeliveryUpload.ProgressPercent | src/hooks/useDeliveryProofUpload.js:136 | the percentage rounded half up, in integer arithmetic |
| DeliveryUpload.ProgressBounds | src/hooks/useDeliveryProofUpload.js:136 | progress never exceeds 100 while loaded ≤ total, and is 100 when all is loaded |
| DeliveryUpload.CheckReadyForDelivery | src/hooks/useDeliveryProofUpload.js:112-113 | ready iff the normalised status can move to DELIVERED |
| DeliveryUpload.ReadyIffPickedUp | src/hooks/useDeliveryProofUpload.js:112-113 | the twice-normalised guard passes exactly when the status normalises to PICKED_UP |
| DeliveryUpload.ReadyMeansDeliverable | src/hooks/useDeliveryProofUpload.js:112-116 | an order that passes the guard normalises to PICKED_UP and may move to DELIVERED; a CANCELLED order never passes |
| DeliveryUpload.UploadSession.constructor | src/hooks/useDeliveryProofUpload.js:30-37 | the hook's order, no image, progress 0, idle, not complete; the session invariant holds: a request in flight or a completed upload implies the order is ready for delivery |
| DeliveryUpload.UploadSession.Select | src/hooks/useDeliveryProofUpload.js:55-85 | an accepted asset becomes the image with progress 0 and not complete; any other outcome changes nothing |
| DeliveryUpload.UploadSession.StartUpload | src/hooks/useDeliveryProofUpload.js:97-124 | refuses, in this order, offline, no image uri, an upload running, the hook's order not ready for delivery, changing nothing; otherwise starts at progress 0 with a controller; the session invariant is kept |
| DeliveryUpload.UploadSession.Begin | src/hooks/useDeliveryProofUpload.js:97-124 | given the readiness check's answer, starts exactly when online, with an image uri, not uploading and ready, and otherwise names the first guard that failed |
| DeliveryUpload.UploadSession.OnUploadProgress | src/hooks/useDeliveryProofUpload.js:134-138 | a falsy total is ignored; otherwise progress is the rounded percentage |
| DeliveryUpload.UploadSession.FinishUpload | src/hooks/useDeliveryProofUpload.js:141-154 | success gives progress 100, complete and a toast; a non-cancel failure clears complete; a cancellation leaves it; every path ends idle without a controller |
| DeliveryUpload.UploadSession.CancelUpload | src/hooks/useDeliveryProofUpload.js:87-95 | aborts when a controller exists, always ends idle at progress 0 and toasts, even when idle |
| DeliveryUpload.HappyPath | src/hooks/useDeliveryProofUpload.js:55-144 | select, start and success end complete at 100 and idle |
| DeliveryUpload.EnabledUploadWithoutUri | src/hooks/useDeliveryProofUpload.js:103-106 | `canUpload` does not look at the uri: with the button enabled and no uri, the tap is refused as missing proof and nothing changes |
| DeliveryUpload.UploadButtonWithoutUri | src/hooks/useDeliveryProofUpload.js:157 | an accepted asset without a uri enables the Upload button, yet the tap is refused as missing proof |
| Orders.Renumber | src/modules/dashboard/screens/DashboardScreen.js:230-235 | every order gets position index+1, everything else kept, so the list is numbered 1..n |
| Orders.RenumberContiguous | src/modules/dashboard/screens/DashboardScreen.js:230-235 | renumbering a numbered list changes nothing |
| Orders.RenumberIdempotent | src/modules/dashboard/screens/DashboardScreen.js:230-235 | renumbering twice is renumbering once |
| Orders.SetStatusWhere | src/modules/dashboard/screens/DashboardScreen.js:122-124 | exactly the orders with the id get the status; the others and the length are unchanged |
| Orders.SetStatusKeepsContiguous | src/modules/dashboard/screens/DashboardScreen.js:122-124 | a status change keeps the numbering |
| Orders.WithoutId | src/modules/dashboard/screens/DashboardScreen.js:145 | keeps exactly the orders with another id, in order, each as often as in the input |
| Orders.WithoutAbsentId | src/modules/dashboard/screens/DashboardScreen.js:145 | removing an absent id changes nothing |
| Orders.RemovalBreaksContiguity | src/modules/dashboard/screens/DashboardScreen.js:145 | removal does not renumber: removing any order but the last from a numbered list with unique ids leaves it no longer numbered 1, 2, 3, ... |
| Orders.TotalEarningConcat | src/modules/dashboard/screens/DashboardScreen.js:150-153 | the total of two lists is the sum of their totals |
| Orders.TotalEarning | src/modules/dashboard/screens/DashboardScreen.js:150-153 | at least each order's earning, and 0 exactly when every order earns 0 |
| Orders.TotalEarningIgnoresPositionAndStatus | src/modules/dashboard/screens/DashboardScreen.js:150-153 | the total depends only on earning and payout |
| Orders.TotalEarningOfSubseq | src/modules/dashboard/screens/DashboardScreen.js:150-153 | removing orders never raises the total |
| Dashboard.NormalizeLoaded | src/modules/dashboard/screens/DashboardScreen.js:50-81 | the array or its items, numbered 1..n, statuses normalised, every other field kept |
| Dashboard.LoadKeepsTotal | src/modules/dashboard/screens/DashboardScreen.js:150-153 | normalising a load keeps the earnings total |
| Dashboard.ReloadIsIdentity | src/modules/dashboard/screens/DashboardScreen.js:77-81 | normalising an already normalised list changes nothing |
| Dashboard.OrdersLoad.constructor | src/modules/dashboard/screens/DashboardScreen.js:38-69 | mounted, loading, not refreshing |
| Dashboard.OrdersLoad.Unmount | src/modules/dashboard/screens/DashboardScreen.js:92-95 | clears the mounted flag only |
| Dashboard.LoadedAsWrittenIsEmpty | src/modules/dashboard/screens/DashboardScreen.js:49-50 | as written the fallback is applied to the response object, so every successful load yields the empty list, which differs from the server's orders whenever there are any |
| Dashboard.LoadedFromResponse | src/modules/dashboard/screens/DashboardScreen.js:49-55 | read from the response's `data`, the server's orders are shown in the order sent, numbered 1..n, with their ids, earnings and total kept |
| Dashboard.OrdersLoad.OnMountLoadSettled | src/modules/dashboard/screens/DashboardScreen.js:72-87 | once unmounted nothing is dispatched; otherwise SET_ORDERS of the orders read from the response's data, or the load toast, and loading stops |
| Dashboard.OrdersLoad.StartRefresh | src/modules/dashboard/screens/DashboardScreen.js:237-240 | sets refreshing only |
| Dashboard.OrdersLoad.OnRefreshSettled | src/modules/dashboard/screens/DashboardScreen.js:46-63 | SET_ORDERS of the orders read from the response's data on success, the refresh toast on a non-cancel failure, nothing on a cancel; both flags cleared |
| Dashboard.OnAccept | src/modules/dashboard/screens/DashboardScreen.js:109-129 | offline only toasts; not online or a status that cannot reach ACCEPTED is blocked; otherwise exactly the matching orders become ACCEPTED and the order opens as ACCEPTED |
| Dashboard.OnReject | src/modules/dashboard/screens/DashboardScreen.js:131-148 | offline only toasts; a status that cannot reach CANCELLED is blocked; otherwise exactly the matching orders are removed, the rest kept in order with their multiplicity |
| Dashboard.CanAcceptIff | src/modules/dashboard/screens/DashboardScreen.js:116-117 | the handler's guard holds iff the twice-normalised status is ASSIGNED or PENDING |
| Dashboard.CanRejectIff | src/modules/dashboard/screens/DashboardScreen.js:138-139 | the reject guard holds iff the twice-normalised status is not terminal |
| Dashboard.AcceptableIsRejectable | src/modules/dashboard/screens/DashboardScreen.js:138-139 | every order that may be accepted may also be rejected |
| Dashboard.ButtonAgreesWithHandler | src/modules/dashboard/screens/DashboardScreen.js:213 | the button and the handler agree for every status with a non-empty normal form, and disagree for blank ones |
| Dashboard.BlankStatusAccepted | src/modules/dashboard/screens/DashboardScreen.js:116-117 | a white-space-only status disables the button, yet the handler accepts it, because normalising "" again gives PENDING |
| Dashboard.AcceptedStaysAccepted | src/modules/dashboard/screens/DashboardScreen.js:122-125 | after an accept, the matching orders can no longer be accepted |
| Dashboard.RejectRemoves | src/modules/dashboard/screens/DashboardScreen.js:145 | after a reject no order has that id and the total has not grown |
| Dashboard.DragEndKeepsTotal | src/modules/dashboard/screens/DashboardScreen.js:230-235 | drag end numbers the list 1..n, keeps the ids in the dropped order and keeps the total |
| Dashboard.ToggleTwice | src/modules/dashboard/screens/DashboardScreen.js:104-107 | toggling twice restores the online flag |
| Dashboard.ShiftText | src/modules/dashboard/screens/DashboardScreen.js:155-159 | minutes below 60, and hours and minutes account for the shift to within a minute |
| RiderDashboard.PriorityAt | src/screens/RiderDashboardScreen.js:40-42 | HIGH exactly at index 0, MEDIUM exactly at index 1 |
| RiderDashboard.Enrich | src/screens/RiderDashboardScreen.js:35-51 | numbered 1..n, a truthy status kept and a missing one "Pending" unnormalised, deadline now + (5+2i) minutes, priority by index, other fields kept |
| RiderDashboard.DeadlinesIncrease | src/screens/RiderDashboardScreen.js:37-38 | deadlines strictly increase with the index and start five minutes out |
| RiderDashboard.PriorityRanks | src/screens/RiderDashboardScreen.js:40-42 | every order after the second is LOW |
| RiderDashboard.SecondsLeft | src/screens/RiderDashboardScreen.js:144-151 | the whole seconds left, floored and never negative, 0 exactly under one second; no deadline never counts down |
| RiderDashboard.CountdownText | src/screens/RiderDashboardScreen.js:165-172 | minutes and seconds recompose the time left, seconds below 60, danger iff under two minutes |
| RiderDashboard.FormatShift | src/screens/RiderDashboardScreen.js:93-98 | h·3600 + m·60 + s is the shift, with m and s below 60 |
| RiderDashboard.ShiftClocksAgree | src/screens/RiderDashboardScreen.js:93-98 | both dashboards show the same hours and minutes for the same shift |
| RiderDashboard.ClockUnique | src/screens/RiderDashboardScreen.js:93-98 | the hours and minutes of a shift are unique |
| RiderDashboard.QueueLabel | src/screens/RiderDashboardScreen.js:207-218 | ACTIVE exactly at position 1, NEXT exactly at 2, numbered otherwise |
| RiderDashboard.QueueLabelsOfContiguous | src/screens/RiderDashboardScreen.js:207-218 | in a numbered list the first is ACTIVE, the second NEXT, the rest #i+1 |
| RiderDashboard.CanonicalAcceptedShowsActions | src/screens/RiderDashboardScreen.js:270-271 | the check is case-sensitive: an ACCEPTED order still shows Accept and Reject |
| RiderDashboard.Screen.constructor | src/screens/RiderDashboardScreen.js:22-27 | no orders, loading, online |
| RiderDashboard.Screen.OnLoadSettled | src/screens/RiderDashboardScreen.js:31-61 | an array is enriched, missing data empties the list, a failure keeps it; both flags cleared |
| RiderDashboard.Screen.Refresh | src/screens/RiderDashboardScreen.js:86-89 | sets refreshing only |
| RiderDashboard.Screen.ToggleOnline | src/screens/RiderDashboardScreen.js:351-353 | flips the online flag only |
| RiderDashboard.Screen.AcceptOrder | src/screens/RiderDashboardScreen.js:102-112 | with no guard, the matching orders become "Accepted" and lose their buttons; the order opens as it was |
| RiderDashboard.Screen.RejectOrder | src/screens/RiderDashboardScreen.js:114-118 | removes exactly the orders with that id |
| RiderDashboard.Screen.Tick | src/screens/RiderDashboardScreen.js:120-151 | the order expires, and is removed like a reject, exactly when its countdown reaches 0 |
| RiderDashboard.Screen.OnDragEnd | src/screens/RiderDashboardScreen.js:427-439 | the dropped list is renumbered |
| RiderDashboard.LoadAcceptExpire | src/screens/RiderDashboardScreen.js:31-130 | an accepted order still expires at its deadline and leaves the list |
| Activity.KeyOf | src/modules/earnings/screens/ActivityScreen.js:16 | the id when truthy, else the order id, else "" |
| Activity.DedupeFrom | src/modules/earnings/screens/ActivityScreen.js:14-22 | keeps only items with a key not seen before; keys in the result are non-empty and pairwise distinct |
| Activity.DedupeById | src/modules/earnings/screens/ActivityScreen.js:14-22 | the loop that grows a set of seen keys computes DedupeFrom from the empty set |
| Activity.DedupeIsSubseq | src/modules/earnings/screens/ActivityScreen.js:15-21 | the result is a subsequence of the input |
| Activity.DedupeKeepsFirst | src/modules/earnings/screens/ActivityScreen.js:15-21 | the first item with each new key is kept |
| Activity.DedupeOfDistinct | src/modules/earnings/screens/ActivityScreen.js:14-22 | a list of distinct non-empty keys passes unchanged |
| Activity.DedupeIdempotent | src/modules/earnings/screens/ActivityScreen.js:14-22 | deduplicating twice is deduplicating once |
| Activity.KeysOfCons | src/modules/earnings/screens/ActivityScreen.js:14-22 | the keys of a list are its head's key and its tail's keys |
| Activity.DedupeConcat | src/modules/earnings/screens/ActivityScreen.js:52-54 | deduplicating a concatenation deduplicates the second part against the first part's keys |
| Activity.DedupeConcatSeen | src/modules/earnings/screens/ActivityScreen.js:14-22 | deduplicating a concatenation deduplicates the second part against the keys seen after the first |
| Activity.SeenAfterIsUnion | src/modules/earnings/screens/ActivityScreen.js:14-22 | the keys seen after a pass are the starting keys plus every non-empty key of the items |
| Activity.AppendKeepsHistory | src/modules/earnings/screens/ActivityScreen.js:52-54 | appending to a clean history keeps it as a prefix and drops incoming items already in it |
| Activity.ErrorMessage | src/modules/earnings/screens/ActivityScreen.js:58-63 | the server message exactly for status 500 |
| Activity.TotalEarnedOfSubseq | src/modules/earnings/screens/ActivityScreen.js:86-89 | dropping items never raises the total |
| Activity.DedupeTotal | src/modules/earnings/screens/ActivityScreen.js:86-89 | deduplication never raises the total |
| Activity.TotalEarned | src/modules/earnings/screens/ActivityScreen.js:86-89 | at least each item's earning, and 0 exactly when every item earns 0 |
| Activity.Merge | src/modules/earnings/screens/ActivityScreen.js:52-53 | the list after a load has non-empty distinct keys and holds only items of the page, or of the history when appending |
| Activity.RepeatedPageKeepsPaging | src/modules/earnings/screens/ActivityScreen.js:52-56 | hasMore is judged on the page as received: a full page of items already shown leaves the list unchanged and still reports more |
| Activity.DedupeAllSeen | src/modules/earnings/screens/ActivityScreen.js:14-22 | a list whose keys were all seen is dropped whole |
| Activity.Screen.constructor | src/modules/earnings/screens/ActivityScreen.js:27-33 | the store's activity, page 1, more to load, loading, no error |
| Activity.Screen.Unmount | src/modules/earnings/screens/ActivityScreen.js:77-84 | clears the mounted flag only |
| Activity.Screen.RunEffect | src/modules/earnings/screens/ActivityScreen.js:74-84 | the effect as written runs exactly when the activity array or the offline flag changed since its last run, and then sets the mounted flag and asks for page 1 in replace mode |
| Activity.Screen.RunMountEffect | src/modules/earnings/screens/ActivityScreen.js:77-84 | the effect keyed on mount only asks for page 1 on its first run and never again |
| Activity.Screen.LoadHistory | src/modules/earnings/screens/ActivityScreen.js:38-75 | offline sets the error and touches nothing else; data merges or replaces, sets the page and hasMore iff a full page; a non-cancel failure sets the message and clears activity unless appending; flags cleared while mounted; the store gets a fresh array exactly when a list is dispatched |
| Activity.Screen.Settle | src/modules/earnings/screens/ActivityScreen.js:52-63 | a page merges or replaces and sets the page and hasMore; a non-cancel failure sets the message and clears the list unless appending; each dispatch gives the store a fresh array |
| Activity.Screen.OnEndReached | src/modules/earnings/screens/ActivityScreen.js:135-139 | requests page+1 exactly when idle, more to load and online |
| Activity.Screen.Refresh | src/modules/earnings/screens/ActivityScreen.js:143-147 | sets refreshing and hasMore and keeps everything else; the reload of page 1 is a separate LoadHistory event |
| Activity.TwoPages | src/modules/earnings/screens/ActivityScreen.js:38-139 | with the effect keyed on mount only: a full clean first page is shown as it is, scrolling requests page 2, which is appended without items already shown, and no later render reloads |
| Activity.AppendOverwrittenAsWritten | src/modules/earnings/screens/ActivityScreen.js:38-139 | as written: page 2 is appended while the reload set off by page 1 is on its way, and that reload then replaces the list with page 1; every effect run asks for page 1 again |
| Activity.StoredListReloads | src/modules/earnings/screens/ActivityScreen.js:53-84 | as written: any load that stores a list makes the next effect run ask for page 1 in replace mode |
| DeliveryProof.MarkDelivered | src/screens/DeliveryProofScreen.js:62-65 | the same order with status DELIVERED |
| DeliveryProof.Screen.constructor | src/screens/DeliveryProofScreen.js:31-39 | empty OTP, no action running |
| DeliveryProof.Screen.SetOtp | src/screens/DeliveryProofScreen.js:31 | replaces the OTP only |
| DeliveryProof.Screen.HandleComplete | src/screens/DeliveryProofScreen.js:48-71 | refuses iff the gate fails; in development builds any OTP but 1234 is rejected; otherwise completes with the order marked DELIVERED and no action running |
| DeliveryProof.CompletionIgnoresLifecycle | src/screens/DeliveryProofScreen.js:48-71 | the handler itself checks no transition: given a completed upload it marks any order DELIVERED, a CANCELLED one included |
| DeliveryProof.ConfirmWithSession | src/screens/DeliveryProofScreen.js:39-71 | with the upload session of the same order, a completion happens only for an order that normalises to PICKED_UP and may move to DELIVERED; a CANCELLED order is never completed |
| DeliveryProof.EnabledConfirmPassesGate | src/screens/DeliveryProofScreen.js:43-46 | an enabled Confirm button implies a valid OTP, a completed upload, online and no upload running |
| DeliveryProof.RetryEnabledIff | src/screens/DeliveryProofScreen.js:113-120 | where Retry is shown, it is enabled exactly when the Upload button is and the upload has not completed |
| DeliveryProof.TapRetry | src/screens/DeliveryProofScreen.js:118 | a tap on an enabled Retry is never refused as offline or as running; it starts exactly when the image has a uri and the order is ready |
| Navigator.RootStack | src/navigation/RiderNavigator.js:193 | intro iff unseen; rider iff seen and logged in; auth iff seen and logged out |
| Navigator.ApiErrorToast | src/navigation/RiderNavigator.js:140-144 | no toast exactly for status 401 or an empty message; otherwise the message |
| Navigator.EveryFailureIsReported | src/navigation/RiderNavigator.js:134-148 | every failure but a 401 is toasted, and a 401 fires the unauthorized callback |
| Navigator.Navigator.constructor | src/navigation/RiderNavigator.js:96-97 | intro unseen, hydrating, the initial store, no token or callbacks |
| Navigator.Navigator.Dispatch | src/navigation/RiderNavigator.js:99 | one reducer step, logged |
| Navigator.Navigator.ClearSession | src/navigation/RiderNavigator.js:101-105 | drops the client token and dispatches SET_AUTH logged out |
| Navigator.Navigator.Hydrate | src/navigation/RiderNavigator.js:107-132 | the intro flag from storage; no token stays logged out; token and profile give SET_PROFILE then SET_AUTH; a profile failure clears the session; a failed read only stops hydrating; hydrating is false on every path |
| Navigator.Navigator.RegisterCallbacks | src/navigation/RiderNavigator.js:134-148 | registers the three callbacks |
| Navigator.Navigator.UnregisterCallbacks | src/navigation/RiderNavigator.js:150-154 | resets all three callbacks |
| Navigator.Navigator.OnCallback | src/navigation/RiderNavigator.js:134-148 | unauthorized clears the session and toasts "Session expired…"; an error toasts and alerts unless ignored; network dispatches SET_OFFLINE of the negation |
| Navigator.Navigator.CompleteIntro | src/navigation/RiderNavigator.js:157-160 | the intro is seen |
| Navigator.Navigator.HandleLogin | src/navigation/RiderNavigator.js:162-166 | the client gets the token and SET_AUTH logs in |
| Navigator.SessionLifecycle | src/navigation/RiderNavigator.js:107-138 | a stored token opens the rider stack, and a later 401 returns to the auth stack |
| Navigator.FailedStarts | src/navigation/RiderNavigator.js:107-132 | a failed profile read shows the auth stack; an unreadable storage shows the intro |
| BankAccounts.SetPrimary | src/rider/BankAccountScreen.js:39-46 | an account is primary iff it has the id; other fields, order and length kept |
| BankAccounts.SetPrimaryExactlyOne | src/rider/BankAccountScreen.js:39-46 | with distinct ids, choosing an existing account leaves exactly it primary |
| BankAccounts.SetPrimaryAbsent | src/rider/BankAccountScreen.js:34-46 | choosing an absent id leaves no primary account |
| BankAccounts.SetPrimaryIdempotent | src/rider/BankAccountScreen.js:39-46 | choosing twice is choosing once |
| BankAccounts.SetPrimaryKeepsInvariant | src/rider/BankAccountScreen.js:39-46 | distinct ids stay distinct and at most one account is primary |
| BankAccounts.Remove | src/rider/BankAccountScreen.js:57-60 | keeps exactly the accounts with another id, in order, each as often as in the input |
| BankAccounts.RemoveKeepsInvariant | src/rider/BankAccountScreen.js:57-60 | removal keeps ids distinct and at most one primary |
| BankAccounts.ConsKeepsInvariant | src/rider/BankAccountScreen.js:57-60 | an account that clashes with no id and no primary flag of a well-formed list keeps it well-formed in front |
| BankAccounts.RemoveCons | src/rider/BankAccountScreen.js:57-60 | removal works head first |
| BankAccounts.RemoveAndPrimary | src/rider/BankAccountScreen.js:34-60 | removing the primary account leaves none; removing another keeps the shown primary |
| BankAccounts.RemoveKeepsFirstPrimary | src/rider/BankAccountScreen.js:34-60 | removing an id no primary account has keeps the shown primary |
| BankAccounts.PrimaryAccount | src/rider/BankAccountScreen.js:34-37 | none iff no account is primary; otherwise a primary account of the list |
| BankAccounts.PrimaryAccountIsFirst | src/rider/BankAccountScreen.js:34-37 | the shown account is the first primary one |
| BankAccounts.ChosenIsShown | src/rider/BankAccountScreen.js:34-46 | after choosing an account the summary card shows it |
| BankAccounts.InitialAccountsWellFormed | src/rider/BankAccountScreen.js:15-32 | the seeded list has distinct ids and one primary, the first; only the second offers "Set primary" |
| BankAccounts.Screen.constructor | src/rider/BankAccountScreen.js:15-32 | the seeded accounts, which have distinct ids and one primary account |
| BankAccounts.Screen.ChoosePrimary | src/rider/BankAccountScreen.js:39-46 | the list becomes SetPrimary of it, keeping the invariant |
| BankAccounts.Screen.ConfirmRemove | src/rider/BankAccountScreen.js:48-64 | only the confirmed dialog removes, keeping the invariant |
| BankAccounts.PromoteThenRemove | src/rider/BankAccountScreen.js:34-64 | promoting and then removing the second account leaves "Not set" |
| AddBankAccount.Mode | src/rider/AddBankAccountScreen.js:16 | the given mode when truthy, otherwise "add" |
| AddBankAccount.InitialForm | src/rider/AddBankAccountScreen.js:17-22 | fields from the account being edited or "", the account number always "" |
| AddBankAccount.SavePayload | src/rider/AddBankAccountScreen.js:34-39 | trimmed fields; a blank account number falls back to the edited account's |
| AddBankAccount.SaveablePayload | src/rider/AddBankAccountScreen.js:24-39 | a saveable form sends trimmed non-empty fields, and in add mode the typed account number |
| AddBankAccount.CanSave | src/rider/AddBankAccountScreen.js:24-26 | a saveable form has non-empty holder name, bank name and IFSC |
| AddBankAccount.EditGateIsLooser | src/rider/AddBankAccountScreen.js:24-26 | whatever may be saved when adding may be saved when editing |
| AddBankAccount.PayloadStable | src/rider/AddBankAccountScreen.js:34-39 | re-entering a payload's own text gives the same payload |
| AddBankAccount.Screen.constructor | src/rider/AddBankAccountScreen.js:16-22 | the mode, the edited account and the initial form |
| AddBankAccount.Screen.Edit | src/rider/AddBankAccountScreen.js:63-101 | replaces the form |
| AddBankAccount.Screen.Save | src/rider/AddBankAccountScreen.js:28-44 | refused iff the gate fails, with no request; otherwise the payload is sent, and the confirmation names the mode |
| AddBankAccount.EditWithoutNumber | src/rider/AddBankAccountScreen.js:16-39 | editing a seeded account saves with no number; adding it needs one |
| RiderLogin.Digits | src/screens/auth/RiderLoginScreen.js:17-19 | only digits, in the input's order, and every digit of the input |
| RiderLogin.DigitsIdempotent | src/screens/auth/RiderLoginScreen.js:18 | filtering twice is filtering once |
| RiderLogin.DigitsConcat | src/screens/auth/RiderLoginScreen.js:18 | the filter distributes over concatenation |
| RiderLogin.DigitsOfNone | src/screens/auth/RiderLoginScreen.js:18 | text without digits clears the field |
| RiderLogin.Continue | src/screens/auth/RiderLoginScreen.js:22-33 | nothing unless ten characters; otherwise the trimmed phone with role RIDER |
| RiderLogin.ContinueWithTypedPhone | src/screens/auth/RiderLoginScreen.js:17-33 | a typed valid number is passed on unchanged |
| RiderLogin.GroupedNumber | src/screens/auth/RiderLoginScreen.js:17-33 | ten digits typed in two groups reach the OTP step as the ten digits |
| RiderLogin.DigitsOfDigits | src/screens/auth/RiderLoginScreen.js:18 | digits pass the filter unchanged |
| RiderOtp.Screen.constructor | src/screens/auth/RiderOtpScreen.js:19-22 | the phone from the route, empty OTP, not loading |
| RiderOtp.Screen.SetOtp | src/screens/auth/RiderOtpScreen.js:76 | replaces the OTP only |
| RiderOtp.Screen.Guards | src/screens/auth/RiderOtpScreen.js:27-42 | a missing phone first, an invalid OTP next (loading untouched), then in development builds any OTP but 1234 (loading reset) |
| RiderOtp.Screen.HandleVerify | src/screens/auth/RiderOtpScreen.js:26-54 | as rendered: past the guards verification always fails, and loading is false after every path that set it |
| RiderOtp.Screen.HandleVerifyWired | src/screens/auth/RiderOtpScreen.js:26-54 | with the login callback wired: past the guards the rider is logged in |
| RiderOtp.DevCodeNeverLogsIn | src/screens/auth/RiderOtpScreen.js:38-50 | as rendered the development code fails verification; wired it logs in |
| RiderOtp.EnabledVerifyHasValidCode | src/screens/auth/RiderOtpScreen.js:90 | an enabled Verify button implies a four-character OTP and no loading |
| EditProfile.FirstText | src/rider/EditRiderProfileScreen.js:31-33 | the first truthy text, else "" |
| EditProfile.Screen.constructor | src/rider/EditRiderProfileScreen.js:19-22 | empty fields, not loading |
| EditProfile.Screen.Hydrate | src/rider/EditRiderProfileScreen.js:28-37 | name from the profile; vehicle, else vehicleNumber; the sensitive phone, else the profile's; "" otherwise; a failed read changes nothing |
| EditProfile.Screen.SetName | src/rider/EditRiderProfileScreen.js:81 | replaces the name only |
| EditProfile.Screen.SetVehicle | src/rider/EditRiderProfileScreen.js:98 | replaces the vehicle only |
| EditProfile.Screen.HandleSave | src/rider/EditRiderProfileScreen.js:39-59 | nothing when invalid; otherwise the untrimmed fields are sent, and loading is false after success or failure |
| EditProfile.TapEnabledSave | src/rider/EditRiderProfileScreen.js:112-113 | a tap on an enabled Save button always sends the update, and loading ends cleared |
| EditProfile.HydrateFallbacks | src/rider/EditRiderProfileScreen.js:32-33 | vehicleNumber fills a missing vehicle; the sensitive phone wins |
| EditProfile.ValidityIgnoresPadding | src/rider/EditRiderProfileScreen.js:24-26 | outer white space never changes validity |
| EditProfile.PaddingIsSent | src/rider/EditRiderProfileScreen.js:24-46 | validity is judged on the trimmed text, but the update carries the name as typed, white space in front included |
| EditProfile.IsValid | src/rider/EditRiderProfileScreen.js:24-26 | a valid form has a name longer than two and a vehicle number longer than three characters |
| Intro.Next | src/screens/IntroOnboardingScreen.js:30-39 | completes exactly on the last slide and stays there; otherwise advances by one |
| Intro.IndexAfter | src/screens/IntroOnboardingScreen.js:28-39 | the slide shown after k presses is at most k and always one of the slides |
| Intro.IndexAfterPresses | src/screens/IntroOnboardingScreen.js:28-39 | after k presses the slide is min(k, 2), always within the slides |
| Intro.CompletesFromThirdPress | src/screens/IntroOnboardingScreen.js:30-39 | Next completes exactly from the third press on |
| Intro.Screen.constructor | src/screens/IntroOnboardingScreen.js:28 | slide 0, nothing completed |
| Intro.Screen.HandleNext | src/screens/IntroOnboardingScreen.js:32-39 | on the last slide completes and stays; otherwise advances by one; the index stays within the slides |
| Intro.Screen.HandleSkip | src/screens/IntroOnboardingScreen.js:41-43 | always completes and keeps the slide |
| Intro.WalkThrough | src/screens/IntroOnboardingScreen.js:28-39 | three presses end on the last slide with one completion |
| Payout.ShownBalance | src/rider/RiderPayoutScreen.js:115 | the available amount, 0 exactly when it is missing or zero |
| Payout.StatusColor | src/rider/RiderPayoutScreen.js:67 | green exactly for "Completed", orange otherwise |
| Payout.Screen.constructor | src/rider/RiderPayoutScreen.js:20-23 | no wallet, no history, loading |
| Payout.Screen.LoadData | src/rider/RiderPayoutScreen.js:25-36 | a missing wallet becomes {0, 0}; the history is the array or its items; a failure keeps both; loading and refreshing end false |
| Payout.Screen.OnRefresh | src/rider/RiderPayoutScreen.js:42-45 | sets refreshing and keeps the wallet and history; the reload is a separate LoadData event |
| Payout.Screen.RequestPayout | src/rider/RiderPayoutScreen.js:47-64 | refused iff the balance is missing or zero; once confirmed exactly the shown balance is withdrawn |
| Payout.EmptyWalletRefuses | src/rider/RiderPayoutScreen.js:28-51 | before a load and after a load without a wallet, payout is refused |
| Payout.WithdrawThenReload | src/rider/RiderPayoutScreen.js:47-61 | a withdrawal takes the available balance, and the reload shows the new one |
| AuthContext.Provider.constructor | src/context/RiderAuthContext.js:11-23 | no token, logged out |
| AuthContext.Provider.Login | src/context/RiderAuthContext.js:13-23 | the token is the given one; logged in iff it is non-empty |
| AuthContext.Provider.Logout | src/context/RiderAuthContext.js:17-19 | no token, logged out |
| AuthContext.EmptyTokenAndLogout | src/context/RiderAuthContext.js:13-23 | an empty token is logged out, and login then logout is logged out |
| StatusBadge.Label | src/components/StatusBadge.js:9-13 | the normal form with each "_" shown as " " and every other character in place |
| StatusBadge.LabelTwoWords | src/components/StatusBadge.js:9-13 | two words typed around any white-space run are shown upper-cased and joined by one space |
| StatusBadge.BadgeColor | src/components/StatusBadge.js:12 | an unknown normal form gets the muted colour; a known one gets its seven-character "#" colour |
| StatusBadge.KnownStatusBadge | src/components/StatusBadge.js:9-13 | a known status gets its table colour and its name with "_" shown as spaces, and a name without "_" is shown unchanged |
| StatusBadge.PickedUpBadge | src/components/StatusBadge.js:9-13 | PICKED_UP shows "PICKED UP" in #EA580C |
| StatusBadge.AbsentStatusBadge | src/components/StatusBadge.js:9-13 | a missing status shows "PENDING" in #2563EB |
| StatusBadge.UnknownStatusBadge | src/components/StatusBadge.js:12-13 | an unknown status gets the muted colour and its normal form as label |
| Lists.Filter | src/modules/dashboard/screens/DashboardScreen.js:145 | keeps exactly the elements satisfying the predicate |
| Lists.FilterIsSubseq | src/modules/dashboard/screens/DashboardScreen.js:145 | the result keeps the input's order |
| Lists.FilterCounts | src/modules/dashboard/screens/DashboardScreen.js:145 | every passing element keeps all its copies and every failing one loses all of them |
| Lists.FilterAll | src/modules/dashboard/screens/DashboardScreen.js:145 | filtering with a predicate every element meets changes nothing |
| Lists.FilterConcat | src/screens/auth/RiderLoginScreen.js:18 | filtering distributes over concatenation |
| Lists.FilterIdempotent | src/screens/auth/RiderLoginScreen.js:18 | filtering twice is filtering once |
| Entities.ItemsOf | src/modules/dashboard/screens/DashboardScreen.js:50 | the array, else its items, else [] |
| Entities.FirstTruthy | src/modules/dashboard/screens/DashboardScreen.js:151 | the first truthy amount, else 0 |

## Left out

- Transport: the axios instance, the request helper and the endpoint wrappers. Every request is an input that succeeds with a body or fails. The orders list is the exception: its input is the whole HTTP response, because `fetchAssignedOrders` returns it unwrapped (see Findings).
- `fetchAssignedOrders` takes no parameters, so the dashboard's abort signal never reaches the request. The model keeps a cancellation as a possible outcome of a load.
- Storage reads are inputs, and storage writes are left out. Their failures are swallowed.
- Platform services are inputs: the permission dialogs, the image picker, NetInfo and `fetch`.
- Timers are left out: the 12 s poll, the 5 s probe abort, the 700/800 ms fake delays, the shift and countdown intervals, and `setTimeout` in general.
  - The clock is the parameter `now`. Elapsed shift seconds are a parameter too.
- Concurrency is not modelled:
  - Overlapping loads where the last one wins, and `Promise.all` fan-out.
  - Abort races. A cancellation is an error that arrives as a sequential event.
  - The refresh path in the order dashboard returns an abort function that nobody calls. It is not modelled.
- Floating point: `Number(...)` coercion of payload fields. Amounts are naturals, and progress rounding uses integer arithmetic.
- Case mapping is ASCII only. `toUpperCase` and `toLowerCase` apply to a–z; other letters are left as they are.
- `String(status)` of non-string statuses: a status is an optional text.
- Offline status: every screen receives it as an input. The store as written has no `network` slice, so reading `state.network.isOffline` throws (see Findings); the root view and the screens are modelled with the corrected store.
- `{...undefined, status}` builds a record holding the status alone. `MarkDelivered` maps an absent order to none instead.
- JSX, styles, themes, animations, toasts' display, and navigation beyond the parameters passed.
- The `maxLength` limits of the text inputs.
- EditProfile.IsValid, RiderLogin.IsValid, RiderOtp.IsValid and DeliveryProof.IsValidOtp count characters as Dafny code points, whereas JavaScript `.length` counts UTF-16 code units. A character outside the Basic Multilingual Plane counts twice in the source, so a name such as two emoji passes the source's `> 2` gate and fails the model's. The phone number is reduced to ASCII digits first, so for it the two counts agree; the OTP texts are taken as typed, and for them the counts differ the same way.
- Activity.KeyOf takes ids as text. In the source an id may be a number: the number 1 and the text "1" give the same key, and a numeric id 0 is falsy and falls through to the order id.
- `src/services/riderApi.js` is not part of this model. It exports only the token setter and three endpoints. Many screens import functions it lacks, among them the handler setters, the profile, wallet and payout calls, and the bank-account call. The model takes the handler semantics from `src/api/riderApi.js` and treats every backend call as an input.
- The earnings summary's structure is an opaque map.
- `Payout.Screen.RequestPayout`: the reload after a successful withdrawal is a separate `LoadData` event.
- `AddBankAccount.Screen.Save`: a failed request rejects without an alert, which is modelled as `SaveFailed`. The navigation back after the alert is not modelled.
- `Navigator.Navigator.OnCallback`: the alert of the error callback is logged in `alerts`. Its display is not modelled.

## Findings

| source | as written | input that shows it | evidently intended | confidence | as-written member | corrected member |
|---|---|---|---|---|---|---|
| src/store/AppStore.js:17-40 | The reducer has no SET_OFFLINE case and the state has no `network` slice. The network hook and the navigator dispatch SET_OFFLINE, and `state.network.isOffline` is read in src/components/ui/OfflineBanner.js:10, src/modules/dashboard/screens/DashboardScreen.js:44, src/modules/earnings/screens/ActivityScreen.js:36 and src/hooks/useDeliveryProofUpload.js:39. `state.network` is undefined, so each read throws a TypeError; the banner is rendered on every render after hydration (src/navigation/RiderNavigator.js:191), so the root view throws on its first render after hydration and no stack is shown. `Navigator.RootStack` and `Navigator.SessionLifecycle` describe the app with the corrected store. | any `SET_OFFLINE(true)` dispatch: the state is unchanged and holds no offline flag | SET_OFFLINE writes a network slice that the screens read | high (not executed) | AppStore.SetOfflineIgnored | AppStore.OfflineFollowsLastReport |
| src/screens/auth/RiderOtpScreen.js:15-18,47 | The screen calls a prop `setIsLoggedIn`. The navigator passes the callback as `onLogin` (src/navigation/RiderNavigator.js:60), so the call throws and lands in the catch. | a phone, OTP "1234" in a development build: the result is "Verification Failed" | a verified OTP logs the rider in through the supplied callback | high (not executed) | RiderOtp.DevCodeNeverLogsIn | RiderOtp.Screen.HandleVerifyWired |
| src/modules/earnings/screens/ActivityScreen.js:74-84 | `loadHistory` is a callback over `[dispatch, history, isOffline]`, and the mount effect depends on `[loadHistory]`. Every SET_EARNINGS_ACTIVITY stores a fresh array, which re-creates the callback and re-runs the effect; the effect loads page 1 in replace mode, which stores another fresh array. | any successful first load: page 1 is requested again after every load, and a page 2 appended by scrolling is replaced by the next page-1 result | the effect loads page 1 once on mount, and appended pages stay | high (not executed) | Activity.AppendOverwrittenAsWritten | Activity.TwoPages |
| src/modules/dashboard/screens/DashboardScreen.js:49-50 | `fetchAssignedOrders` (src/services/riderApi.js:35-36) resolves with the axios response itself, and no interceptor unwraps it. The screen applies `Array.isArray(res) ? res : res?.items || []` to that response, which is not an array and has no `items` field; the same happens at lines 74-77. | any successful load or refresh, whatever orders the server sends: SET_ORDERS stores the empty list and the dashboard shows no order | the orders are read from `res.data`, as src/screens/RiderDashboardScreen.js:35 does | high (not executed) | Dashboard.LoadedAsWrittenIsEmpty | Dashboard.LoadedFromResponse |

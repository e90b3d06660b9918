/**
 * The earnings history screen: paginated loading with an append mode, the
 * deduplication by id that keeps the first occurrence, the `hasMore` rule, the
 * error messages, the load-more guard and the loaded total.
 *
 * The offline flag and the outcome of each request are inputs. The screen's
 * mount effect is modelled twice: as written, keyed on a callback that is
 * re-created with every new activity array, and keyed on mount only.
 */
module Activity {
  import opened Wrappers
  import opened Entities
  import Lists
  import DeliveryUpload

  const PageSize: nat := 10
  const OfflineError := "You are offline. Connect to internet and retry."
  const ServerError := "Server issue while fetching activity."
  const LoadError := "Unable to load activity."

  /** `String(item?.id || item?.orderId || '')`. */
  function KeyOf(item: ActivityItem): (k: string)
    ensures TextTruthy(item.id) ==> k == item.id.value
    ensures !TextTruthy(item.id) && TextTruthy(item.orderId) ==> k == item.orderId.value
    ensures k == "" <==> !TextTruthy(item.id) && !TextTruthy(item.orderId)
  {
    if TextTruthy(item.id) then item.id.value
    else if TextTruthy(item.orderId) then item.orderId.value
    else ""
  }

  /** The non-empty keys of a list. */
  function KeysOf(items: seq<ActivityItem>): set<string> {
    set i | 0 <= i < |items| && KeyOf(items[i]) != "" :: KeyOf(items[i])
  }

  /** The filter with the set of keys already seen: an item is kept when its key
      is non-empty and unseen, and its key is then seen. */
  function DedupeFrom(items: seq<ActivityItem>, seen: set<string>): (r: seq<ActivityItem>)
    ensures |r| <= |items|
    ensures forall i :: 0 <= i < |r| ==> r[i] in items
    ensures forall i :: 0 <= i < |r| ==> KeyOf(r[i]) != "" && KeyOf(r[i]) !in seen
    ensures forall i, j :: 0 <= i < j < |r| ==> KeyOf(r[i]) != KeyOf(r[j])
    decreases |items|
  {
    if items == [] then []
    else
      var k := KeyOf(items[0]);
      if k == "" || k in seen then DedupeFrom(items[1..], seen)
      else [items[0]] + DedupeFrom(items[1..], seen + {k})
  }

  /** `dedupeById`, grown left to right with a set of seen keys. */
  method DedupeById(items: seq<ActivityItem>) returns (r: seq<ActivityItem>)
    ensures r == DedupeFrom(items, {})
  {
    var seen: set<string> := {};
    r := [];
    var i := 0;
    while i < |items|
      invariant 0 <= i <= |items|
      invariant r + DedupeFrom(items[i..], seen) == DedupeFrom(items, {})
    {
      var k := KeyOf(items[i]);
      assert items[i..][1..] == items[i + 1..];
      if k != "" && k !in seen {
        seen := seen + {k};
        r := r + [items[i]];
      }
      i := i + 1;
    }
    assert items[i..] == [];
  }

  /** The kept items appear in the input, in the input's order. */
  lemma {:induction false} DedupeIsSubseq(items: seq<ActivityItem>, seen: set<string>)
    ensures Lists.IsSubseq(DedupeFrom(items, seen), items)
    decreases |items|
  {
    if items != [] {
      var k := KeyOf(items[0]);
      if k == "" || k in seen {
        DedupeIsSubseq(items[1..], seen);
        Lists.SubseqOfTail(DedupeFrom(items, seen), items);
      } else {
        DedupeIsSubseq(items[1..], seen + {k});
      }
    }
  }

  /** The first item carrying each unseen non-empty key is kept. */
  lemma {:induction false} DedupeKeepsFirst(items: seq<ActivityItem>, seen: set<string>, i: nat)
    requires i < |items| && KeyOf(items[i]) != "" && KeyOf(items[i]) !in seen
    requires forall j :: 0 <= j < i ==> KeyOf(items[j]) != KeyOf(items[i])
    ensures items[i] in DedupeFrom(items, seen)
    decreases i
  {
    if i > 0 {
      var k := KeyOf(items[0]);
      var seen' := if k == "" || k in seen then seen else seen + {k};
      assert items[1..][i - 1] == items[i];
      DedupeKeepsFirst(items[1..], seen', i - 1);
    }
  }

  /** A list whose keys are non-empty, distinct and unseen passes unchanged. */
  lemma {:induction false} DedupeOfDistinct(items: seq<ActivityItem>, seen: set<string>)
    requires forall i :: 0 <= i < |items| ==> KeyOf(items[i]) != "" && KeyOf(items[i]) !in seen
    requires forall i, j :: 0 <= i < j < |items| ==> KeyOf(items[i]) != KeyOf(items[j])
    ensures DedupeFrom(items, seen) == items
    decreases |items|
  {
    if items != [] {
      DedupeOfDistinct(items[1..], seen + {KeyOf(items[0])});
    }
  }

  /** `dedupeById` is idempotent. */
  lemma DedupeIdempotent(items: seq<ActivityItem>)
    ensures DedupeFrom(DedupeFrom(items, {}), {}) == DedupeFrom(items, {})
  {
    DedupeOfDistinct(DedupeFrom(items, {}), {});
  }

  lemma KeysOfCons(x: ActivityItem, rest: seq<ActivityItem>)
    ensures KeysOf([x] + rest) == (if KeyOf(x) == "" then {} else {KeyOf(x)}) + KeysOf(rest)
  {
    var xs := [x] + rest;
    forall k | k in KeysOf(rest)
      ensures k in KeysOf(xs)
    {
      var i :| 0 <= i < |rest| && KeyOf(rest[i]) != "" && KeyOf(rest[i]) == k;
      assert xs[i + 1] == rest[i];
    }
    if KeyOf(x) != "" {
      assert xs[0] == x;
    }
    forall k | k in KeysOf(xs)
      ensures k in (if KeyOf(x) == "" then {} else {KeyOf(x)}) + KeysOf(rest)
    {
      var i :| 0 <= i < |xs| && KeyOf(xs[i]) != "" && KeyOf(xs[i]) == k;
      if i > 0 {
        assert rest[i - 1] == xs[i];
      }
    }
  }

  /** The keys seen once the filter has passed over `items`. */
  function SeenAfter(items: seq<ActivityItem>, seen: set<string>): set<string>
    decreases |items|
  {
    if items == [] then seen
    else
      var k := KeyOf(items[0]);
      if k == "" || k in seen then SeenAfter(items[1..], seen)
      else SeenAfter(items[1..], seen + {k})
  }

  /** The filter sees exactly the keys it started with and those of the list. */
  lemma {:induction false} SeenAfterIsUnion(items: seq<ActivityItem>, seen: set<string>)
    ensures SeenAfter(items, seen) == seen + KeysOf(items)
    decreases |items|
  {
    if items == [] {
      assert KeysOf(items) == {};
    } else {
      var x, rest := items[0], items[1..];
      assert items == [x] + rest;
      KeysOfCons(x, rest);
      var k := KeyOf(x);
      if k == "" || k in seen {
        SeenAfterIsUnion(rest, seen);
      } else {
        SeenAfterIsUnion(rest, seen + {k});
      }
    }
  }

  /** Deduplicating a concatenation deduplicates the first part, then the second
      part with the first part's keys already seen. */
  lemma {:induction false} DedupeConcat(a: seq<ActivityItem>, b: seq<ActivityItem>, seen: set<string>)
    ensures DedupeFrom(a + b, seen) == DedupeFrom(a, seen) + DedupeFrom(b, seen + KeysOf(a))
  {
    DedupeConcatSeen(a, b, seen);
    SeenAfterIsUnion(a, seen);
  }

  /** DedupeConcat with the seen keys as the filter accumulates them. */
  lemma {:induction false} DedupeConcatSeen(a: seq<ActivityItem>, b: seq<ActivityItem>, seen: set<string>)
    ensures DedupeFrom(a + b, seen) == DedupeFrom(a, seen) + DedupeFrom(b, SeenAfter(a, seen))
    decreases |a|
  {
    if a == [] {
      assert a + b == b;
    } else {
      var x, rest := a[0], a[1..];
      assert (a + b)[0] == x && (a + b)[1..] == rest + b;
      var k := KeyOf(x);
      if k == "" || k in seen {
        DedupeConcatSeen(rest, b, seen);
      } else {
        DedupeConcatSeen(rest, b, seen + {k});
        var front := DedupeFrom(rest, seen + {k});
        var back := DedupeFrom(b, SeenAfter(rest, seen + {k}));
        assert [x] + (front + back) == ([x] + front) + back;
      }
    }
  }

  /** Every key is non-empty and no key repeats: what `dedupeById` returns. */
  predicate Clean(items: seq<ActivityItem>) {
    && (forall i :: 0 <= i < |items| ==> KeyOf(items[i]) != "")
    && (forall i, j :: 0 <= i < j < |items| ==> KeyOf(items[i]) != KeyOf(items[j]))
  }

  /** The list after a load: appended pages are deduplicated together with the
      history, a first page alone. Either way the list is clean and holds only
      items of the page, or, when appending, of the history. */
  function Merge(history: seq<ActivityItem>, incoming: seq<ActivityItem>, append: bool): (r: seq<ActivityItem>)
    ensures Clean(r)
    ensures forall i :: 0 <= i < |r| ==> r[i] in incoming || (append && r[i] in history)
  {
    if append then DedupeFrom(history + incoming, {}) else DedupeFrom(incoming, {})
  }

  /** Loading more never reorders or drops what is shown: a deduplicated history
      is kept as a prefix, followed by the new page's items with unseen keys. */
  lemma AppendKeepsHistory(history: seq<ActivityItem>, incoming: seq<ActivityItem>)
    requires DedupeFrom(history, {}) == history
    ensures Merge(history, incoming, true) == history + DedupeFrom(incoming, KeysOf(history))
    ensures forall i :: 0 <= i < |incoming| && KeyOf(incoming[i]) in KeysOf(history) ==>
      incoming[i] !in Merge(history, incoming, true)[|history|..]
  {
    DedupeConcat(history, incoming, {});
    assert {} + KeysOf(history) == KeysOf(history);
    var m := Merge(history, incoming, true);
    assert m[|history|..] == DedupeFrom(incoming, KeysOf(history));
  }

  /** `hasMore`: a full page means there may be more. */
  predicate HasMore(incoming: seq<ActivityItem>) {
    |incoming| >= PageSize
  }

  /** `hasMore` is judged on the page as received, before deduplication: a full
      page whose items are all shown already leaves the list as it is and still
      reports that more may exist. */
  lemma RepeatedPageKeepsPaging(history: seq<ActivityItem>, incoming: seq<ActivityItem>)
    requires Clean(history) && |incoming| >= PageSize
    requires forall i :: 0 <= i < |incoming| ==> KeyOf(incoming[i]) in KeysOf(history)
    ensures HasMore(incoming)
    ensures Merge(history, incoming, true) == history
  {
    DedupeOfDistinct(history, {});
    AppendKeepsHistory(history, incoming);
    DedupeAllSeen(incoming, KeysOf(history));
    assert history + [] == history;
  }

  /** A list whose every key has been seen already is dropped whole. */
  lemma {:induction false} DedupeAllSeen(items: seq<ActivityItem>, seen: set<string>)
    requires forall i :: 0 <= i < |items| ==> KeyOf(items[i]) in seen
    ensures DedupeFrom(items, seen) == []
    decreases |items|
  {
    if items != [] {
      DedupeAllSeen(items[1..], seen);
    }
  }

  /** The error text of a failed load. */
  function ErrorMessage(status: Option<int>): (m: string)
    ensures m == ServerError <==> status == Some(500)
    ensures m == LoadError <==> status != Some(500)
  {
    if status == Some(500) then ServerError else LoadError
  }

  /** `Number(item.earning || item.amount || 0)`. */
  function ItemEarning(item: ActivityItem): nat {
    FirstTruthy(item.earning, item.amount)
  }

  /** `totalEarned`: at least each item's earning, and 0 exactly when every
      item earns 0. */
  function TotalEarned(items: seq<ActivityItem>): (total: nat)
    ensures forall i :: 0 <= i < |items| ==> ItemEarning(items[i]) <= total
    ensures total == 0 <==> forall i :: 0 <= i < |items| ==> ItemEarning(items[i]) == 0
    decreases |items|
  {
    if items == [] then 0 else ItemEarning(items[0]) + TotalEarned(items[1..])
  }

  /** Removing items never raises the total, so deduplication never does. */
  lemma {:induction false} TotalEarnedOfSubseq(a: seq<ActivityItem>, b: seq<ActivityItem>)
    requires Lists.IsSubseq(a, b)
    ensures TotalEarned(a) <= TotalEarned(b)
    decreases |b|
  {
    if a != [] {
      if a[0] == b[0] {
        TotalEarnedOfSubseq(a[1..], b[1..]);
      } else {
        TotalEarnedOfSubseq(a, b[1..]);
      }
    }
  }

  lemma DedupeTotal(items: seq<ActivityItem>)
    ensures TotalEarned(DedupeFrom(items, {})) <= TotalEarned(items)
  {
    DedupeIsSubseq(items, {});
    TotalEarnedOfSubseq(DedupeFrom(items, {}), items);
  }

  /** The arguments of one `loadHistory` call. */
  datatype Load = Load(nextPage: nat, append: bool)

  /** `loadHistory()` with its defaults: the first page, replacing the list. */
  const FirstPage := Load(1, false)

  /** Whether a settled load dispatches SET_EARNINGS_ACTIVITY: every merged page
      does, and a failure in replace mode dispatches the empty list. */
  predicate Dispatches(isOffline: bool, mounted: bool, append: bool, res: PageResult) {
    !isOffline && mounted && (res.PageData? || (!DeliveryUpload.IsCancellation(res.errorName) && !append))
  }

  /** What one activity request settled with. */
  datatype PageResult = PageData(body: ListBody<ActivityItem>) | PageFailed(errorName: Option<string>, status: Option<int>)

  /** The screen's state together with the store's activity list. */
  class Screen {
    /** `state.earnings.activity`. */
    var activity: seq<ActivityItem>
    var page: nat
    var hasMore: bool
    var loading: bool
    var refreshing: bool
    var loadingMore: bool
    var error: string
    /** `isMountedRef.current`. */
    var mounted: bool
    /** The identity of the store's activity array: each SET_EARNINGS_ACTIVITY
        stores a fresh array, so it grows by one with every dispatch. */
    var activityVersion: nat
    /** The array and offline flag `loadHistory` was built from when the mount
        effect as written last ran; none before the first run. */
    var effectDeps: Option<(nat, bool)>
    /** Whether the mount-only effect has run. */
    var mountEffectRan: bool

    constructor(activity0: seq<ActivityItem>)
      ensures activity == activity0 && page == 1 && hasMore && loading
      ensures !refreshing && !loadingMore && error == "" && mounted
      ensures activityVersion == 0 && effectDeps == None && !mountEffectRan
    {
      activityVersion := 0;
      effectDeps := None;
      mountEffectRan := false;
      activity := activity0;
      page := 1;
      hasMore := true;
      loading := true;
      refreshing := false;
      loadingMore := false;
      error := "";
      mounted := true;
    }

    method Unmount()
      modifies this
      ensures !mounted
      ensures activity == old(activity) && page == old(page) && hasMore == old(hasMore) && error == old(error)
      ensures loading == old(loading) && refreshing == old(refreshing) && loadingMore == old(loadingMore)
      ensures activityVersion == old(activityVersion) && effectDeps == old(effectDeps) && mountEffectRan == old(mountEffectRan)
    {
      mounted := false;
    }

    /** `loadHistory({nextPage, append})`, the request settling with `res`. */
    method LoadHistory(nextPage: nat, append: bool, isOffline: bool, res: PageResult)
      modifies this
      ensures mounted == old(mounted)
      // offline: an error and no request; the store is untouched
      ensures isOffline ==> error == OfflineError && activity == old(activity)
      ensures isOffline ==> page == old(page) && hasMore == old(hasMore)
      // the request was sent: the error is cleared first
      ensures !isOffline && (!old(mounted) || res.PageData? || DeliveryUpload.IsCancellation(res.errorName)) ==>
        error == ""
      ensures !isOffline && !old(mounted) ==> activity == old(activity) && page == old(page) && hasMore == old(hasMore)
      ensures !isOffline && old(mounted) && res.PageData? ==>
        && activity == Merge(old(activity), ItemsOf(res.body), append)
        && page == nextPage
        && hasMore == HasMore(ItemsOf(res.body))
      ensures !isOffline && res.PageFailed? ==> page == old(page) && hasMore == old(hasMore)
      ensures !isOffline && res.PageFailed? && DeliveryUpload.IsCancellation(res.errorName) ==>
        activity == old(activity)
      ensures !isOffline && old(mounted) && res.PageFailed? && !DeliveryUpload.IsCancellation(res.errorName) ==>
        && error == ErrorMessage(res.status)
        && activity == if append then old(activity) else []
      // the finally block
      ensures old(mounted) ==> !loading && !refreshing && !loadingMore
      ensures !old(mounted) ==> loading == old(loading) && refreshing == old(refreshing) && loadingMore == old(loadingMore)
      // the store receives a fresh array exactly when the list is dispatched
      ensures activityVersion == old(activityVersion) + if Dispatches(isOffline, old(mounted), append, res) then 1 else 0
      ensures effectDeps == old(effectDeps) && mountEffectRan == old(mountEffectRan)
    {
      if isOffline {
        error := OfflineError;
      } else {
        error := "";
        if mounted {
          Settle(nextPage, append, res);
        }
      }
      if mounted {
        loading := false;
        refreshing := false;
        loadingMore := false;
      }
    }

    /** The settled request while the screen is mounted: the list is merged and
        dispatched, or the failure is reported. */
    method Settle(nextPage: nat, append: bool, res: PageResult)
      modifies this
      requires error == ""
      ensures res.PageData? ==>
        && activity == Merge(old(activity), ItemsOf(res.body), append)
        && page == nextPage
        && hasMore == HasMore(ItemsOf(res.body))
        && error == ""
      ensures res.PageFailed? ==> page == old(page) && hasMore == old(hasMore)
      ensures res.PageFailed? && DeliveryUpload.IsCancellation(res.errorName) ==>
        activity == old(activity) && error == ""
      ensures res.PageFailed? && !DeliveryUpload.IsCancellation(res.errorName) ==>
        && error == ErrorMessage(res.status)
        && activity == if append then old(activity) else []
      ensures activityVersion == old(activityVersion) + if Dispatches(false, true, append, res) then 1 else 0
      ensures mounted == old(mounted) && loading == old(loading) && refreshing == old(refreshing)
      ensures loadingMore == old(loadingMore) && effectDeps == old(effectDeps) && mountEffectRan == old(mountEffectRan)
    {
      match res {
        case PageData(body) =>
          var incoming := ItemsOf(body);
          activity := Merge(activity, incoming, append);
          activityVersion := activityVersion + 1;
          page := nextPage;
          hasMore := HasMore(incoming);
        case PageFailed(name, status) =>
          if !DeliveryUpload.IsCancellation(name) {
            error := ErrorMessage(status);
            if !append {
              activity := [];
              activityVersion := activityVersion + 1;
            }
          }
      }
    }

    /** `onEndReached`: the next page is requested in append mode only when no
        load is running, more may exist and the device is online. */
    method OnEndReached(isOffline: bool) returns (request: Option<nat>)
      modifies this
      ensures request.Some? <==> !old(loading) && !old(refreshing) && !old(loadingMore) && old(hasMore) && !isOffline
      ensures request.Some? ==> request.value == page + 1 && loadingMore
      ensures request.None? ==> loadingMore == old(loadingMore)
      ensures activity == old(activity) && page == old(page) && hasMore == old(hasMore) && error == old(error)
      ensures loading == old(loading) && refreshing == old(refreshing) && mounted == old(mounted)
      ensures activityVersion == old(activityVersion) && effectDeps == old(effectDeps) && mountEffectRan == old(mountEffectRan)
    {
      if loading || refreshing || loadingMore || !hasMore || isOffline {
        return None;
      }
      loadingMore := true;
      request := Some(page + 1);
    }

    /** Pull to refresh: page 1 is requested afresh and more is assumed. */
    method Refresh()
      modifies this
      ensures refreshing && hasMore
      ensures activity == old(activity) && page == old(page) && error == old(error)
      ensures loading == old(loading) && loadingMore == old(loadingMore) && mounted == old(mounted)
      ensures activityVersion == old(activityVersion) && effectDeps == old(effectDeps) && mountEffectRan == old(mountEffectRan)
    {
      refreshing := true;
      hasMore := true;
    }

    /** The mount effect as written. It depends on `loadHistory`, a callback
        re-created whenever the store's activity array or the offline flag
        changes, so it runs after the first render and again after every such
        change: the cleanup clears the mounted flag, the new run sets it and asks
        for the first page in replace mode. */
    method RunEffect(isOffline: bool) returns (load: Option<Load>)
      modifies this
      ensures load.Some? <==> old(effectDeps) != Some((activityVersion, isOffline))
      ensures load.Some? ==> load.value == FirstPage && mounted
      ensures load.None? ==> mounted == old(mounted)
      ensures effectDeps == Some((activityVersion, isOffline))
      ensures activity == old(activity) && page == old(page) && hasMore == old(hasMore) && error == old(error)
      ensures loading == old(loading) && refreshing == old(refreshing) && loadingMore == old(loadingMore)
      ensures activityVersion == old(activityVersion) && mountEffectRan == old(mountEffectRan)
    {
      if effectDeps != Some((activityVersion, isOffline)) {
        mounted := true;
        load := Some(FirstPage);
      } else {
        load := None;
      }
      effectDeps := Some((activityVersion, isOffline));
    }

    /** The mount effect keyed on mount only: the first page is asked for once,
        and later renders leave the list alone. */
    method RunMountEffect() returns (load: Option<Load>)
      modifies this
      ensures load.Some? <==> !old(mountEffectRan)
      ensures load.Some? ==> load.value == FirstPage && mounted
      ensures load.None? ==> mounted == old(mounted)
      ensures mountEffectRan
      ensures activity == old(activity) && page == old(page) && hasMore == old(hasMore) && error == old(error)
      ensures loading == old(loading) && refreshing == old(refreshing) && loadingMore == old(loadingMore)
      ensures activityVersion == old(activityVersion) && effectDeps == old(effectDeps)
    {
      if !mountEffectRan {
        mounted := true;
        load := Some(FirstPage);
      } else {
        load := None;
      }
      mountEffectRan := true;
    }
  }

  /** As written, every load that stores a list makes the next run of the
      mount effect ask for the first page again; since that reload stores a
      list too, the reloads never stop. */
  method StoredListReloads(s: Screen, nextPage: nat, append: bool, isOffline: bool, res: PageResult)
    returns (reload: Option<Load>)
    requires s.effectDeps == Some((s.activityVersion, isOffline))
    requires Dispatches(isOffline, s.mounted, append, res)
    modifies s
    ensures reload == Some(FirstPage)
  {
    s.LoadHistory(nextPage, append, isOffline, res);
    reload := s.RunEffect(isOffline);
  }

  /** As written, a second page does not stay: while the reload that the first
      page's list set off is on its way, the rider scrolls and page 2 is
      appended, and then the reload replaces the list with page 1 again. */
  method AppendOverwrittenAsWritten(p1: seq<ActivityItem>, q: seq<ActivityItem>)
    returns (s: Screen, appended: seq<ActivityItem>, request: Option<nat>, reloads: seq<Option<Load>>)
    requires Clean(p1) && |p1| >= PageSize
    ensures request == Some(2)
    ensures appended == p1 + DedupeFrom(q, KeysOf(p1))
    ensures s.activity == p1 && s.page == 1
    ensures reloads == [Some(FirstPage), Some(FirstPage), Some(FirstPage), Some(FirstPage)]
  {
    DedupeOfDistinct(p1, {});
    AppendKeepsHistory(p1, q);
    s := new Screen([]);
    var first := s.RunEffect(false);
    s.LoadHistory(1, false, false, PageData(ArrayBody(p1)));
    var reload1 := s.RunEffect(false);
    request := s.OnEndReached(false);
    s.LoadHistory(2, true, false, PageData(ArrayBody(q)));
    appended := s.activity;
    var reload2 := s.RunEffect(false);
    s.LoadHistory(1, false, false, PageData(ArrayBody(p1)));
    var reload3 := s.RunEffect(false);
    reloads := [first, reload1, reload2, reload3];
  }

  /** With the effect keyed on mount only, two pages: a full first page is
      shown as it is, the rider scrolls, page 2 is requested and appended
      without the items already shown, and no later render reloads. */
  method TwoPages(p1: seq<ActivityItem>, q: seq<ActivityItem>)
    returns (s: Screen, request: Option<nat>, settled: Option<Load>)
    requires Clean(p1) && |p1| >= PageSize
    ensures request == Some(2)
    ensures s.activity == p1 + DedupeFrom(q, KeysOf(p1))
    ensures forall i :: 0 <= i < |q| && KeyOf(q[i]) in KeysOf(p1) ==> q[i] !in s.activity[|p1|..]
    ensures s.page == 2 && s.hasMore == HasMore(q)
    ensures settled == None
  {
    DedupeOfDistinct(p1, {});
    AppendKeepsHistory(p1, q);
    s := new Screen([]);
    var first := s.RunMountEffect();
    s.LoadHistory(1, false, false, PageData(ArrayBody(p1)));
    settled := s.RunMountEffect();
    request := s.OnEndReached(false);
    s.LoadHistory(2, true, false, PageData(ArrayBody(q)));
    settled := s.RunMountEffect();
  }
}

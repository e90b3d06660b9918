/**
 * The connectivity monitor hook: it turns a stream of online/offline
 * observations, from the connectivity event source or from a periodic probe of
 * the backend, into SET_OFFLINE dispatches, never dispatching the same value
 * twice in a row and never dispatching after teardown.
 */
module NetworkMonitor {
  import opened Wrappers
  import Lists

  /** The interval between backend probes, in milliseconds. */
  const PingIntervalMs: nat := 12000

  /** The value the event listener reports: online when `isConnected` is truthy and
      `isInternetReachable` is not exactly `false` (unknown reachability counts as
      online). `None` is JavaScript's `null`/`undefined`. */
  function IsOnline(isConnected: Option<bool>, isInternetReachable: Option<bool>): (r: bool)
    ensures r <==> isConnected == Some(true) && isInternetReachable != Some(false)
    ensures isConnected == Some(true) && isInternetReachable.None? ==> r
  {
    isConnected.GetOr(false) && isInternetReachable != Some(false)
  }

  /** The sequence with every run of equal consecutive values cut to one. */
  function Dedupe<T(==)>(xs: seq<T>): (r: seq<T>)
    ensures |r| <= |xs|
    ensures xs == [] <==> r == []
    ensures xs != [] ==> r[|r| - 1] == xs[|xs| - 1]
    decreases |xs|
  {
    if xs == [] then []
    else
      var d := Dedupe(xs[..|xs| - 1]);
      if d != [] && d[|d| - 1] == xs[|xs| - 1] then d else d + [xs[|xs| - 1]]
  }

  predicate NoAdjacentDuplicates<T(==)>(xs: seq<T>) {
    forall i :: 0 < i < |xs| ==> xs[i - 1] != xs[i]
  }

  /** No value is dispatched twice in a row. */
  lemma {:induction false} DedupeNoAdjacent<T>(xs: seq<T>)
    ensures NoAdjacentDuplicates(Dedupe(xs))
    decreases |xs|
  {
    if xs != [] {
      DedupeNoAdjacent(xs[..|xs| - 1]);
    }
  }

  /** The first observation is always dispatched. */
  lemma {:induction false} DedupeKeepsFirst<T>(xs: seq<T>)
    requires xs != []
    ensures Dedupe(xs)[0] == xs[0]
    decreases |xs|
  {
    if |xs| > 1 {
      var init := xs[..|xs| - 1];
      DedupeKeepsFirst(init);
      assert init[0] == xs[0];
    }
  }

  /** Without adjacent duplicates there is nothing to cut. */
  lemma {:induction false} DedupeOfNoAdjacent<T>(xs: seq<T>)
    requires NoAdjacentDuplicates(xs)
    ensures Dedupe(xs) == xs
    decreases |xs|
  {
    if xs != [] {
      var init := xs[..|xs| - 1];
      assert NoAdjacentDuplicates(init);
      DedupeOfNoAdjacent(init);
      assert xs == init + [xs[|xs| - 1]];
    }
  }

  /** Deduplicating twice is deduplicating once. */
  lemma DedupeIdempotent<T>(xs: seq<T>)
    ensures Dedupe(Dedupe(xs)) == Dedupe(xs)
  {
    DedupeNoAdjacent(xs);
    DedupeOfNoAdjacent(Dedupe(xs));
  }

  /** The dispatched values are observed values, in the order observed. */
  lemma {:induction false} DedupeIsSubseq<T>(xs: seq<T>)
    ensures Lists.IsSubseq(Dedupe(xs), xs)
    decreases |xs|
  {
    if xs != [] {
      var init := xs[..|xs| - 1];
      var x := xs[|xs| - 1];
      var d := Dedupe(init);
      assert xs == init + [x];
      DedupeIsSubseq(init);
      if d != [] && d[|d| - 1] == x {
        SubseqExtend(d, init, x);
      } else {
        SubseqSnoc(d, init, x);
      }
    }
  }

  /** Appending one element to both sides keeps a subsequence. */
  lemma {:induction false} SubseqSnoc<T>(a: seq<T>, b: seq<T>, x: T)
    requires Lists.IsSubseq(a, b)
    ensures Lists.IsSubseq(a + [x], b + [x])
    decreases |b|
  {
    if a == [] {
      if b == [] {
      } else {
        assert (b + [x])[1..] == b[1..] + [x];
        SubseqSnoc(a, b[1..], x);
        Lists.SubseqOfTail(a + [x], b + [x]);
      }
    } else if a[0] == b[0] {
      assert (a + [x])[1..] == a[1..] + [x];
      assert (b + [x])[1..] == b[1..] + [x];
      SubseqSnoc(a[1..], b[1..], x);
    } else {
      assert (b + [x])[1..] == b[1..] + [x];
      SubseqSnoc(a, b[1..], x);
    }
  }

  /** Appending one element to the longer side keeps a subsequence. */
  lemma {:induction false} SubseqExtend<T>(a: seq<T>, b: seq<T>, x: T)
    requires Lists.IsSubseq(a, b)
    ensures Lists.IsSubseq(a, b + [x])
    decreases |b|
  {
    if a != [] {
      assert (b + [x])[1..] == b[1..] + [x];
      if a[0] == b[0] {
        SubseqExtend(a[1..], b[1..], x);
      } else {
        SubseqExtend(a, b[1..], x);
      }
    }
  }

  /** The last element of a non-empty sequence. */
  function LastOf<T>(xs: seq<T>): Option<T> {
    if xs == [] then None else Some(xs[|xs| - 1])
  }

  /** One run of the hook's effect, from mount to teardown. */
  class Monitor {
    /** `lastOfflineRef.current`. */
    var last: Option<bool>
    /** The effect's `mounted` flag. */
    var mounted: bool
    /** The event listener is registered. */
    var subscribed: bool
    /** The probe interval is running. */
    var polling: bool
    /** The SET_OFFLINE payloads dispatched so far. */
    var dispatched: seq<bool>
    /** The values handed to `safeSetOffline` while mounted. */
    ghost var observed: seq<bool>

    ghost predicate Valid()
      reads this
    {
      && dispatched == Dedupe(observed)
      && last == LastOf(dispatched)
      && !(subscribed && polling)
      && (!mounted ==> !subscribed && !polling)
    }

    /** Mounting: the event subscription is tried first, and polling starts only
        when it is unavailable. The first probe is the first `OnProbe` call. */
    constructor(eventSourceAvailable: bool)
      ensures Valid()
      ensures mounted && last == None && dispatched == [] && observed == []
      ensures subscribed == eventSourceAvailable && polling == !eventSourceAvailable
    {
      last := None;
      mounted := true;
      subscribed := eventSourceAvailable;
      polling := !eventSourceAvailable;
      dispatched := [];
      observed := [];
    }

    /** `safeSetOffline`: drop the value after teardown or when it equals the last
        one dispatched; otherwise remember and dispatch it. */
    method SafeSetOffline(isOffline: bool) returns (sent: bool)
      requires Valid()
      modifies this
      ensures Valid()
      ensures mounted == old(mounted) && subscribed == old(subscribed) && polling == old(polling)
      ensures sent <==> old(mounted) && old(last) != Some(isOffline)
      ensures old(mounted) ==> observed == old(observed) + [isOffline]
      ensures !old(mounted) ==> observed == old(observed)
      ensures dispatched == if sent then old(dispatched) + [isOffline] else old(dispatched)
      ensures mounted ==> last == Some(isOffline)
    {
      sent := false;
      if !mounted {
        return;
      }
      observed := observed + [isOffline];
      assert observed[..|observed| - 1] == old(observed);
      if last == Some(isOffline) {
        return;
      }
      last := Some(isOffline);
      dispatched := dispatched + [isOffline];
      sent := true;
    }

    /** The event listener: reports the negation of the computed online value. */
    method OnConnectivityEvent(isConnected: Option<bool>, isInternetReachable: Option<bool>) returns (sent: bool)
      requires Valid() && subscribed
      modifies this
      ensures Valid() && subscribed
      ensures observed == old(observed) + [!IsOnline(isConnected, isInternetReachable)]
      ensures sent <==> old(last) != Some(!IsOnline(isConnected, isInternetReachable))
      ensures dispatched == if sent then old(dispatched) + [!IsOnline(isConnected, isInternetReachable)] else old(dispatched)
    {
      sent := SafeSetOffline(!IsOnline(isConnected, isInternetReachable));
    }

    /** One probe of the backend: a completed request reports online; any failure,
        the five-second abort included, reports offline. Nothing escapes. */
    method OnProbe(completed: bool) returns (sent: bool)
      requires Valid() && polling
      modifies this
      ensures Valid() && polling
      ensures observed == old(observed) + [!completed]
      ensures sent <==> old(last) != Some(!completed)
      ensures dispatched == if sent then old(dispatched) + [!completed] else old(dispatched)
    {
      sent := SafeSetOffline(!completed);
    }

    /** Teardown: clears the flag, unsubscribes or stops the interval. */
    method Teardown()
      requires Valid()
      modifies this
      ensures Valid() && !mounted && !subscribed && !polling
      ensures dispatched == old(dispatched) && last == old(last) && observed == old(observed)
    {
      mounted := false;
      subscribed := false;
      polling := false;
    }
  }

  /** A late event after teardown (a probe that resolves afterwards) dispatches
      nothing. */
  method LateProbeAfterTeardown(eventSourceAvailable: bool, completed: bool) returns (sent: bool)
    ensures !sent
  {
    var m := new Monitor(eventSourceAvailable);
    m.Teardown();
    sent := m.SafeSetOffline(!completed);
  }

  /** The scenario on the polling path: offline, offline, online dispatches
      offline then online; the repeated offline is filtered. */
  method PollingScenario() returns (log: seq<bool>)
    ensures log == [true, false]
  {
    var m := new Monitor(false);
    var s1 := m.OnProbe(false);
    var s2 := m.OnProbe(false);
    var s3 := m.OnProbe(true);
    log := m.dispatched;
  }
}

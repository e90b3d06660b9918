/**
 * The first-run intro: three slides, a Next button that walks through them
 * and completes on the last one, and Skip, which completes at once. The
 * completion callback is counted rather than run.
 */
module Intro {

  /** The slides' ids, in order. */
  const Slides: seq<string> := ["deliver-fast", "earnings", "safety"]

  predicate IsLastSlide(activeIndex: int) {
    activeIndex == |Slides| - 1
  }

  /** What Next does from slide `i`: the next slide, or, on the last one, the
      same slide and a completion. */
  function Next(i: nat): (r: (nat, bool))
    ensures r.1 <==> IsLastSlide(i)
    ensures r.1 ==> r.0 == i
    ensures !r.1 ==> r.0 == i + 1
  {
    if IsLastSlide(i) then (i, true) else (i + 1, false)
  }

  /** The slide shown after `k` presses of Next from the first slide. */
  function IndexAfter(k: nat): (i: nat)
    ensures i <= k && i < |Slides|
  {
    if k == 0 then 0 else Next(IndexAfter(k - 1)).0
  }

  /** Pressing Next `k` times shows slide min(k, 2): the index climbs by one per
      press and then stays on the last slide. */
  lemma {:induction false} IndexAfterPresses(k: nat)
    ensures IndexAfter(k) == if k < |Slides| then k else |Slides| - 1
    ensures IndexAfter(k) < |Slides|
  {
    if k > 0 {
      IndexAfterPresses(k - 1);
    }
  }

  /** The intro completes on the third press of Next and on every later one. */
  lemma CompletesFromThirdPress(k: nat)
    ensures Next(IndexAfter(k)).1 <==> k >= |Slides| - 1
  {
    IndexAfterPresses(k);
  }

  class Screen {
    var activeIndex: nat
    /** How many times the completion callback ran. */
    var completions: nat

    predicate Valid()
      reads this
    {
      activeIndex < |Slides|
    }

    constructor()
      ensures activeIndex == 0 && completions == 0 && Valid()
    {
      activeIndex := 0;
      completions := 0;
    }

    /** `handleNext`. */
    method HandleNext()
      modifies this
      requires Valid()
      ensures Valid()
      ensures IsLastSlide(old(activeIndex)) ==> activeIndex == old(activeIndex) && completions == old(completions) + 1
      ensures !IsLastSlide(old(activeIndex)) ==> activeIndex == old(activeIndex) + 1 && completions == old(completions)
    {
      if IsLastSlide(activeIndex) {
        completions := completions + 1;
        return;
      }
      activeIndex := activeIndex + 1;
    }

    /** `handleSkip`. */
    method HandleSkip()
      modifies this
      requires Valid()
      ensures Valid()
      ensures activeIndex == old(activeIndex) && completions == old(completions) + 1
    {
      completions := completions + 1;
    }
  }

  /** Next, Next, Next: two slides forward, then completion on the last one. */
  method WalkThrough() returns (s: Screen)
    ensures s.activeIndex == 2 && s.completions == 1
  {
    s := new Screen();
    s.HandleNext();
    s.HandleNext();
    s.HandleNext();
  }
}

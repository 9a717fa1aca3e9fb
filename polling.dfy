/**
 * `waitUntil(predicate, interval = 10)` of addon/content/head.js. The
 * predicate is given as the sequence of answers its successive calls return;
 * the timer is given as the list of delays the function schedules.
 */
module Polling {
  import opened Wrappers

  /** The default `interval`, which every retry falls back to. */
  const DefaultInterval: int := 10

  /**
   * What a `waitUntil` call has done once the predicate has answered
   * `polls`: how its promise settled (`None` while it is pending) and the
   * `setTimeout` delays scheduled so far.
   */
  datatype Wait = Wait(resolution: Option<bool>, delays: seq<int>)

  /**
   * `waitUntil` as written: resolve with `true` if the predicate holds,
   * otherwise schedule a retry after `interval` that calls `waitUntil`
   * again without passing `interval` on.
   */
  function WaitUntil(polls: seq<bool>, interval: int): (r: Wait)
    ensures r.resolution != Some(false)
    ensures |r.delays| <= |polls|
  {
    if polls == [] then Wait(None, [])
    else if polls[0] then Wait(Some(true), [])
    else
      var retry := WaitUntil(polls[1..], DefaultInterval);
      Wait(retry.resolution, [interval] + retry.delays)
  }

  /** The index of the first poll on which the predicate holds. */
  function FirstTrue(polls: seq<bool>): (r: Option<nat>)
    ensures r.Some? ==> r.value < |polls| && polls[r.value]
    ensures r.Some? ==> forall j :: 0 <= j < r.value ==> !polls[j]
    ensures r.None? ==> forall j :: 0 <= j < |polls| ==> !polls[j]
  {
    if polls == [] then None
    else if polls[0] then Some(0)
    else match FirstTrue(polls[1..])
      case None => None
      case Some(k) => Some(k + 1)
  }

  /**
   * The promise resolves, and only ever with `true`, exactly when some poll
   * succeeds; one delay is scheduled per failed poll before that (so none
   * when the first poll succeeds).
   */
  lemma {:induction false} WaitUntilResolvesAtFirstTrue(polls: seq<bool>, interval: int)
    ensures WaitUntil(polls, interval).resolution == if FirstTrue(polls).Some? then Some(true) else None
    ensures |WaitUntil(polls, interval).delays|
      == match FirstTrue(polls) case Some(k) => k case None => |polls|
  {
    if polls != [] && !polls[0] {
      WaitUntilResolvesAtFirstTrue(polls[1..], DefaultInterval);
    }
  }

  /** The first delay is `interval`; every later one is the default 10. */
  lemma {:induction false} WaitUntilDelays(polls: seq<bool>, interval: int)
    ensures var d := WaitUntil(polls, interval).delays;
      && (|d| > 0 ==> d[0] == interval)
      && forall j :: 1 <= j < |d| ==> d[j] == DefaultInterval
  {
    if polls != [] && !polls[0] {
      WaitUntilDelays(polls[1..], DefaultInterval);
    }
  }

  /** `waitUntil` as its documentation describes it: every retry waits `interval`. */
  function WaitUntilIntended(polls: seq<bool>, interval: int): Wait
  {
    if polls == [] then Wait(None, [])
    else if polls[0] then Wait(Some(true), [])
    else
      var retry := WaitUntilIntended(polls[1..], interval);
      Wait(retry.resolution, [interval] + retry.delays)
  }

  /**
   * The intended version settles exactly like the written one, and every
   * delay it schedules is `interval`.
   */
  lemma {:induction false} WaitUntilIntendedDelays(polls: seq<bool>, interval: int)
    ensures WaitUntilIntended(polls, interval).resolution == WaitUntil(polls, interval).resolution
    ensures |WaitUntilIntended(polls, interval).delays| == |WaitUntil(polls, interval).delays|
    ensures forall j :: 0 <= j < |WaitUntilIntended(polls, interval).delays| ==>
      WaitUntilIntended(polls, interval).delays[j] == interval
  {
    if polls != [] && !polls[0] {
      WaitUntilIntendedDelays(polls[1..], interval);
      WaitUntilSameOutcome(polls[1..], interval, DefaultInterval);
    }
  }

  /** The interval has no influence on how `waitUntil` settles or how many retries it makes. */
  lemma {:induction false} WaitUntilSameOutcome(polls: seq<bool>, i1: int, i2: int)
    ensures WaitUntil(polls, i1).resolution == WaitUntil(polls, i2).resolution
    ensures |WaitUntil(polls, i1).delays| == |WaitUntil(polls, i2).delays|
  {
  }

  /**
   * `waitUntil(p, 100)` with a predicate that fails twice waits 100 and then
   * 10 milliseconds, not 100 twice.
   */
  lemma DroppedIntervalWitness()
    ensures WaitUntil([false, false, true], 100).delays == [100, 10]
    ensures WaitUntilIntended([false, false, true], 100).delays == [100, 100]
  {
    assert [false, false, true][1..] == [false, true];
    assert [false, true][1..] == [true];
  }
}

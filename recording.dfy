/**
 * The overview wait at the end of `stopRecording` in
 * addon/content/head.js: after the recording stops, keep awaiting
 * `onceSpread(OverviewView, OVERVIEW_RENDERED)` until a rendering reports
 * the high-resolution interval as its second argument.
 */
module Recording {
  import opened Wrappers
  import opened Events

  /** `let [_, res] = value`: the second element, `undefined` when there is none. */
  function SecondOf(v: Value): Value
  {
    if v.List? && |v.items| >= 2 then v.items[1] else Undefined
  }

  /** The firing with these arguments is the final, high-resolution rendering. */
  predicate IsHighRes(args: seq<Value>, highRes: int)
  {
    SecondOf(Payload(args, true)) == Num(highRes)
  }

  /** The index of the first high-resolution rendering among `events`. */
  function FirstHighRes(events: seq<seq<Value>>, highRes: int): (r: Option<nat>)
    ensures r.Some? ==> r.value < |events| && IsHighRes(events[r.value], highRes)
    ensures r.Some? ==> forall j :: 0 <= j < r.value ==> !IsHighRes(events[j], highRes)
    ensures r.None? ==> forall j :: 0 <= j < |events| ==> !IsHighRes(events[j], highRes)
  {
    if events == [] then None
    else if IsHighRes(events[0], highRes) then Some(0)
    else match FirstHighRes(events[1..], highRes)
      case None => None
      case Some(k) => Some(k + 1)
  }

  /**
   * The `while (!overviewRendered && options.waitForOverview)` loop, fed the
   * argument lists of the successive OVERVIEW_RENDERED firings. Returns how
   * many firings it consumed and whether it finished: without
   * `waitForOverview` it consumes none; otherwise it stops right after the
   * first high-resolution rendering, and with none among `events` it
   * consumes them all and is still waiting.
   */
  method AwaitFinalOverview(waitForOverview: bool, events: seq<seq<Value>>, highRes: int)
    returns (consumed: nat, finished: bool)
    ensures !waitForOverview ==> consumed == 0 && finished
    ensures waitForOverview ==> match FirstHighRes(events, highRes)
      case Some(k) => consumed == k + 1 && finished
      case None => consumed == |events| && !finished
  {
    var overviewRendered := false;
    consumed := 0;
    while !overviewRendered && waitForOverview && consumed < |events|
      invariant 0 <= consumed <= |events|
      invariant !waitForOverview ==> consumed == 0 && !overviewRendered
      invariant overviewRendered ==> consumed > 0 && IsHighRes(events[consumed - 1], highRes)
      invariant forall j :: 0 <= j < consumed && (j < consumed - 1 || !overviewRendered) ==>
        !IsHighRes(events[j], highRes)
    {
      var res := SecondOf(Payload(events[consumed], true));
      if res == Num(highRes) {
        overviewRendered := true;
      }
      consumed := consumed + 1;
    }
    finished := overviewRendered || !waitForOverview;
  }
}

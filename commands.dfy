/**
 * How the test runner turns its configuration into the sequencer's command
 * list (`_startTest` in addon/content/metaperf.js).
 */
module Commands {

  /**
   * One queued command: the closure that looks up `test_<subtest>`, hands it
   * a fresh timer and advances the sequencer when its promise settles. All
   * repeats of a subtest push the same closure, so the subtest name is all
   * that tells two commands apart.
   */
  datatype Command = RunSubtest(subtest: string)

  /** How often `for (var r = 0; r < repeat; r++)` runs its body. */
  function Copies(repeat: int): nat
  {
    if repeat > 0 then repeat else 0
  }

  /** `n` copies of one command. */
  function Repeated(c: Command, n: nat): (r: seq<Command>)
    ensures |r| == n
    ensures forall k :: 0 <= k < n ==> r[k] == c
  {
    seq(n, _ => c)
  }

  /**
   * The list the `reduce` over `subtests` returns: the commands built so far
   * for the earlier subtests, then `Copies(repeat)` copies of the command of
   * the last one.
   */
  function Expand(subtests: seq<string>, repeat: int): (r: seq<Command>)
    ensures forall k :: 0 <= k < |r| ==> r[k].subtest in subtests
  {
    if subtests == [] then []
    else
      Expand(subtests[..|subtests| - 1], repeat)
      + Repeated(RunSubtest(subtests[|subtests| - 1]), Copies(repeat))
  }

  /** The list holds one command per subtest and repeat. */
  lemma {:induction false} ExpandLength(subtests: seq<string>, repeat: int)
    ensures |Expand(subtests, repeat)| == |subtests| * Copies(repeat)
  {
    if subtests != [] {
      var n := |subtests| - 1;
      ExpandLength(subtests[..n], repeat);
      assert |Expand(subtests, repeat)| == n * Copies(repeat) + Copies(repeat);
    }
  }

  /** A repeat count of zero or less yields no command at all. */
  lemma {:induction false} ExpandWithoutRepeats(subtests: seq<string>, repeat: int)
    requires repeat <= 0
    ensures Expand(subtests, repeat) == []
  {
    ExpandLength(subtests, repeat);
  }

  /**
   * Block `q` of the list, positions `q * c` to `q * c + c - 1` with `c` the
   * number of repeats, holds the command of `subtests[q]`: the repeats of
   * one subtest are contiguous and the blocks follow declaration order.
   */
  lemma {:induction false} ExpandBlock(subtests: seq<string>, repeat: int, q: nat, j: nat)
    requires q < |subtests| && j < Copies(repeat)
    ensures q * Copies(repeat) + j < |Expand(subtests, repeat)|
    ensures Expand(subtests, repeat)[q * Copies(repeat) + j] == RunSubtest(subtests[q])
  {
    var n := |subtests| - 1;
    var c := Copies(repeat);
    var prefix := subtests[..n];
    ExpandLength(prefix, repeat);
    assert Expand(subtests, repeat) == Expand(prefix, repeat) + Repeated(RunSubtest(subtests[n]), c);
    if q == n {
      assert q * c + j - n * c == j;
    } else {
      ExpandBlock(prefix, repeat, q, j);
      MulMonotone(q + 1, n, c);
      assert q * c + j < (q + 1) * c;
    }
  }

  /** Command `k` belongs to `subtests[k / repeat]`. */
  lemma ExpandAt(subtests: seq<string>, repeat: int, k: nat)
    requires k < |Expand(subtests, repeat)|
    ensures repeat > 0
    ensures k / repeat < |subtests|
    ensures Expand(subtests, repeat)[k] == RunSubtest(subtests[k / repeat])
  {
    ExpandLength(subtests, repeat);
    var c := Copies(repeat);
    assert c == repeat;
    var q, j := k / c, k % c;
    DivMod(k, c);
    QuotientBound(k, |subtests|, c);
    ExpandBlock(subtests, repeat, q, j);
  }

  lemma DivMod(k: nat, c: nat)
    requires c > 0
    ensures k == (k / c) * c + k % c && 0 <= k % c < c && k / c >= 0
  {
  }

  lemma QuotientBound(k: nat, n: nat, c: nat)
    requires c > 0 && k < n * c
    ensures k / c < n
  {
    DivMod(k, c);
    if k / c >= n {
      MulMonotone(n, k / c, c);
    }
  }

  /** One more subtest appends its block. */
  lemma ExpandStep(subtests: seq<string>, repeat: int, i: nat)
    requires i < |subtests|
    ensures Expand(subtests[..i + 1], repeat)
      == Expand(subtests[..i], repeat) + Repeated(RunSubtest(subtests[i]), Copies(repeat))
  {
    assert subtests[..i + 1][..i] == subtests[..i];
  }

  lemma MulMonotone(a: nat, b: nat, c: nat)
    requires a <= b
    ensures a * c <= b * c
  {
  }

  /**
   * The loops of `_startTest`: for each subtest, in order, push its command
   * `repeat` times.
   */
  method AssembleCommands(subtests: seq<string>, repeat: int) returns (assembled: seq<Command>)
    ensures assembled == Expand(subtests, repeat)
    ensures |assembled| == |subtests| * Copies(repeat)
    ensures repeat > 0 ==>
      forall k :: 0 <= k < |assembled| ==> assembled[k] == RunSubtest(subtests[k / repeat])
  {
    assembled := [];
    var i := 0;
    while i < |subtests|
      invariant 0 <= i <= |subtests|
      invariant assembled == Expand(subtests[..i], repeat)
    {
      var test := RunSubtest(subtests[i]);
      var r := 0;
      while r < repeat
        invariant 0 <= r <= Copies(repeat)
        invariant assembled == Expand(subtests[..i], repeat) + Repeated(test, r)
      {
        assert Repeated(test, r) + [test] == Repeated(test, r + 1);
        assembled := assembled + [test];
        r := r + 1;
      }
      assert r == Copies(repeat);
      ExpandStep(subtests, repeat, i);
      i := i + 1;
    }
    assert subtests[..|subtests|] == subtests;
    ExpandLength(subtests, repeat);
    forall k | 0 <= k < |assembled|
      ensures repeat > 0 && k / repeat < |subtests|
      ensures assembled[k] == RunSubtest(subtests[k / repeat])
    {
      ExpandAt(subtests, repeat, k);
    }
  }
}

/**
 * The shared results list of addon/content/metaperf.js: the measurements the
 * timers append, the scalar/array split `_reportAllResults` makes, and the
 * JSON round trip `_doneInternal` uses to copy the list.
 */
module Results {

  /**
   * A measured value. Timestamps are abstract integers; a timer stopped before
   * it was started yields `NaN`; other tests may record an array of samples;
   * `Null` only appears in a JSON copy, where it stands for `NaN`.
   */
  datatype Value = Number(ms: int) | NaN | Null | Series(samples: seq<int>)

  /** One entry `{ name, value }` of `_results`. */
  datatype Measurement = Measurement(name: string, value: Value)

  /** The measurements `_reportAllResults` passes on: those whose value is not an array, in order. */
  function Scalars(rs: seq<Measurement>): (r: seq<Measurement>)
    ensures |r| <= |rs|
    ensures forall k :: 0 <= k < |r| ==> !r[k].value.Series?
  {
    if rs == [] then []
    else
      var last := rs[|rs| - 1];
      Scalars(rs[..|rs| - 1]) + (if last.value.Series? then [] else [last])
  }

  /** The names of a list of measurements, position by position. */
  function Names(ms: seq<Measurement>): (r: seq<string>)
    ensures |r| == |ms|
  {
    seq(|ms|, i requires 0 <= i < |ms| => ms[i].name)
  }

  /** The values of a list of measurements, position by position. */
  function ValuesOf(ms: seq<Measurement>): (r: seq<Value>)
    ensures |r| == |ms|
  {
    seq(|ms|, i requires 0 <= i < |ms| => ms[i].value)
  }

  /** Filtering a concatenation filters each part and keeps their order. */
  lemma {:induction false} ScalarsAppend(a: seq<Measurement>, b: seq<Measurement>)
    ensures Scalars(a + b) == Scalars(a) + Scalars(b)
  {
    if b != [] {
      var n := |b| - 1;
      assert (a + b)[..|a + b| - 1] == a + b[..n];
      ScalarsAppend(a, b[..n]);
    } else {
      assert a + b == a;
    }
  }

  /** Exactly the measurements whose value is not an array survive the filter. */
  lemma {:induction false} ScalarsMembers(rs: seq<Measurement>, m: Measurement)
    ensures m in Scalars(rs) <==> m in rs && !m.value.Series?
  {
    if rs != [] {
      var n := |rs| - 1;
      ScalarsMembers(rs[..n], m);
      assert rs == rs[..n] + [rs[n]];
    }
  }

  /** No array-valued measurement, no filtering. */
  lemma {:induction false} ScalarsWithoutSeries(rs: seq<Measurement>)
    requires forall i :: 0 <= i < |rs| ==> !rs[i].value.Series?
    ensures Scalars(rs) == rs
  {
    if rs != [] {
      var n := |rs| - 1;
      ScalarsWithoutSeries(rs[..n]);
      assert rs == rs[..n] + [rs[n]];
    }
  }

  /** `JSON.parse(JSON.stringify(v))`: `NaN` is written as `null`. */
  function CloneValue(v: Value): Value
  {
    if v.NaN? then Null else v
  }

  /** `JSON.parse(JSON.stringify(results))`, the copy handed to the completion callback. */
  function Clone(rs: seq<Measurement>): (r: seq<Measurement>)
    ensures |r| == |rs|
    ensures forall i :: 0 <= i < |r| ==> !r[i].value.NaN?
  {
    seq(|rs|, i requires 0 <= i < |rs| => Measurement(rs[i].name, CloneValue(rs[i].value)))
  }

  /** The copy has the same names in the same order. */
  lemma CloneKeepsNames(rs: seq<Measurement>)
    ensures Names(Clone(rs)) == Names(rs)
  {
  }

  /** The copy equals the live list exactly when no value is `NaN`. */
  lemma CloneExact(rs: seq<Measurement>)
    ensures Clone(rs) == rs <==> forall i :: 0 <= i < |rs| ==> !rs[i].value.NaN?
  {
    if Clone(rs) == rs {
      forall i | 0 <= i < |rs| ensures !rs[i].value.NaN? {
        assert Clone(rs)[i].value == rs[i].value;
      }
    }
  }

  /** Copying a copy changes nothing. */
  lemma CloneIdempotent(rs: seq<Measurement>)
    ensures Clone(Clone(rs)) == Clone(rs)
  {
  }
}

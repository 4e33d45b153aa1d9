/**
 * The sensor data processor (sensors/data_processor.py): a buffer of the
 * most recent readings and their per-key mean.
 */
module DataProcessor {

  import opened Wrappers
  import opened Buffers

  type Reading = map<string, real>

  /** Every reading has every key of `buffer[0]`, so `r[k]` never raises KeyError. */
  predicate KeysOfFirstEverywhere(buffer: seq<Reading>)
    requires buffer != []
  {
    forall i, k :: 0 <= i < |buffer| && k in buffer[0] ==> k in buffer[i]
  }

  function Sum(rs: seq<Reading>, k: string): real
    requires forall i :: 0 <= i < |rs| ==> k in rs[i]
  {
    if rs == [] then 0.0 else rs[0][k] + Sum(rs[1..], k)
  }

  /** Values of `k` within [lo, hi] give a sum within [n lo, n hi]. */
  lemma {:induction false} SumBounds(rs: seq<Reading>, k: string, lo: real, hi: real)
    requires forall i :: 0 <= i < |rs| ==> k in rs[i] && lo <= rs[i][k] <= hi
    ensures lo * |rs| as real <= Sum(rs, k) <= hi * |rs| as real
  {
    if rs != [] {
      SumBounds(rs[1..], k, lo, hi);
    }
  }

  class DataProcessor {
    const maxlen: int
    var buffer: seq<Reading>
    /** Every reading ever added, oldest first. */
    ghost var history: seq<Reading>

    ghost predicate Valid()
      reads this
    {
      maxlen >= 0 ==> buffer == Retained(history, maxlen)
    }

    constructor (maxlen: int)
      ensures Valid() && this.maxlen == maxlen && buffer == [] && history == []
    {
      this.maxlen := maxlen;
      buffer := [];
      history := [];
    }

    /**
     * Append, then trim to the last `maxlen` readings. For a `maxlen` of at
     * least 0 the buffer is always the retained suffix of the history.
     */
    method AddReading(reading: Reading)
      requires Valid()
      modifies this
      ensures Valid()
      ensures buffer == AppendCapped(old(buffer), reading, maxlen)
      ensures history == old(history) + [reading]
    {
      if maxlen >= 0 {
        AppendCappedRetains(history, reading, maxlen);
      }
      buffer := buffer + [reading];
      if |buffer| > maxlen {
        buffer := SliceFrom(buffer, -maxlen);
      }
      history := history + [reading];
    }

    /**
     * The per-key mean over the buffer, keyed by the first reading's keys;
     * None stands for the KeyError raised when a later reading lacks one.
     */
    function Average(): (r: Option<Reading>)
      reads this
      ensures buffer == [] ==> r == Some(map[])
      ensures buffer != [] ==> (r.Some? <==> KeysOfFirstEverywhere(buffer))
      ensures r.Some? && buffer != [] ==> r.value.Keys == buffer[0].Keys
      ensures r.Some? && buffer != [] ==> forall k :: k in r.value ==>
                r.value[k] * |buffer| as real == Sum(buffer, k)
    {
      if buffer == [] then Some(map[])
      else if KeysOfFirstEverywhere(buffer) then
        Some(map k | k in buffer[0] :: Sum(buffer, k) / |buffer| as real)
      else None
    }

    /** The mean of `k` lies between any bounds on its buffered values. */
    lemma AverageWithinBounds(k: string, lo: real, hi: real)
      requires buffer != [] && KeysOfFirstEverywhere(buffer) && k in buffer[0]
      requires forall i :: 0 <= i < |buffer| ==> lo <= buffer[i][k] <= hi
      ensures Average().Some? && lo <= Average().value[k] <= hi
    {
      SumBounds(buffer, k, lo, hi);
      var n := |buffer| as real;
      var m := Average().value[k];
      assert m * n == Sum(buffer, k);
    }
  }
}

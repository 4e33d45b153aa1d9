/**
 * Bounded reading buffers: `buf.append(x)` followed by
 * `if len(buf) > maxlen: buf = buf[-maxlen:]`, as both the data processor
 * and the location agents keep them.
 */
module Buffers {

  /**
   * Python's `s[k:]` for any integer `k`: a suffix of `s`, dropping the
   * first `k` elements, or keeping the last `-k` when `k` is negative.
   */
  function SliceFrom<T>(s: seq<T>, k: int): (r: seq<T>)
    ensures |r| <= |s| && r == s[|s| - |r|..]
    ensures k >= 0 ==> |r| == (if k <= |s| then |s| - k else 0)
    ensures k < 0 ==> |r| == (if -k <= |s| then -k else |s|)
  {
    if k >= 0 then (if k <= |s| then s[k..] else [])
    else if -k <= |s| then s[|s| + k..]
    else s
  }

  /**
   * Append `x`, then keep the last `maxlen` elements when there are more.
   * Because `s[-0:]` is all of `s`, a `maxlen` of 0 keeps everything.
   */
  function AppendCapped<T>(buf: seq<T>, x: T, maxlen: int): (r: seq<T>)
    ensures |r| <= |buf| + 1
    ensures maxlen >= 0 ==> |r| > 0 && r[|r| - 1] == x
    ensures maxlen >= 1 ==> |r| == (if |buf| + 1 <= maxlen then |buf| + 1 else maxlen)
    ensures maxlen >= 0 ==> r == (buf + [x])[|buf| + 1 - |r|..]
    ensures maxlen == 0 ==> r == buf + [x]
    ensures |buf| + 1 <= maxlen ==> r == buf + [x]
  {
    var b := buf + [x];
    if |b| > maxlen then SliceFrom(b, -maxlen) else b
  }

  /**
   * The contents of a buffer bounded by `maxlen` after the insertions `h`:
   * the last min(|h|, maxlen) of them in order, or all of them when
   * `maxlen` is 0.
   */
  function Retained<T>(h: seq<T>, maxlen: nat): (r: seq<T>)
  {
    if maxlen == 0 || |h| <= maxlen then h else h[|h| - maxlen..]
  }

  /** Appending to the retained suffix retains the suffix of the longer history. */
  lemma {:induction false} AppendCappedRetains<T>(h: seq<T>, x: T, maxlen: nat)
    ensures AppendCapped(Retained(h, maxlen), x, maxlen) == Retained(h + [x], maxlen)
  {
    var n := |h|;
    if maxlen == 0 {
      assert Retained(h, maxlen) == h;
      assert Retained(h + [x], maxlen) == h + [x];
    } else if n < maxlen {
      assert Retained(h, maxlen) == h;
      assert Retained(h + [x], maxlen) == h + [x];
    } else {
      var kept := h[n - maxlen..];
      assert Retained(h, maxlen) == kept;
      var b := kept + [x];
      assert SliceFrom(b, -(maxlen as int)) == b[1..];
      assert b[1..] == h[n - maxlen + 1..] + [x];
      assert Retained(h + [x], maxlen) == (h + [x])[n + 1 - maxlen..];
      assert (h + [x])[n + 1 - maxlen..] == h[n - maxlen + 1..] + [x];
    }
  }
}

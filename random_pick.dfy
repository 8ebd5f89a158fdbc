/**
 * `Math.floor(Math.random() * xs.length)` and the element at that index.
 * The random number is a parameter `r` with `0 <= r < 1`; reals stand in
 * for floating point.
 */
module RandomPick {
  import opened Options

  /** `Math.floor(r * len)`. */
  function PickIndex(r: real, len: nat): (i: int)
    requires 0.0 <= r < 1.0
    ensures len > 0 ==> 0 <= i < len
    ensures len == 0 ==> i == 0
  {
    IndexBound(r, len);
    (r * len as real).Floor
  }

  lemma IndexBound(r: real, len: nat)
    requires 0.0 <= r < 1.0
    ensures 0.0 <= r * len as real
    ensures len > 0 ==> r * len as real < len as real
  {
    if len > 0 {
      assert (1.0 - r) * len as real > 0.0;
    }
  }

  /** `xs[idx]` with JavaScript's reading of an index outside the array as `undefined`. */
  function Pick<T>(xs: seq<T>, r: real): (o: Option<T>)
    requires 0.0 <= r < 1.0
    ensures o.Some? <==> |xs| > 0
    ensures o.Some? ==> o.value in xs
  {
    var i := PickIndex(r, |xs|);
    if 0 <= i < |xs| then Some(xs[i]) else None
  }
}

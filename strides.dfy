/** Counting the windows a loop `for (i = 0; i + width <= n; i += hop)` visits: the shape
    shared by segmentation (`segmentAudio`) and framing (`computeSpectrogram`). */
module Strides {

  /** The number of windows of `width` samples, at offsets 0, hop, 2·hop, …, that fit in
      `n` samples: none when n < width, otherwise (n − width) / hop + 1. */
  function WindowCount(n: nat, width: nat, hop: nat): nat
    requires hop > 0
  {
    if n < width then 0 else (n - width) / hop + 1
  }

  lemma MulMonotone(a: nat, b: nat, h: nat)
    requires a <= b
    ensures a * h <= b * h
  {
  }

  /** Window k is among those counted exactly when it fits: k·hop + width ≤ n. */
  lemma WindowCountExact(n: nat, width: nat, hop: nat, k: nat)
    requires hop > 0
    ensures k < WindowCount(n, width, hop) <==> k * hop + width <= n
  {
    if n >= width {
      var q := (n - width) / hop;
      assert q * hop + (n - width) % hop == n - width;
      if k <= q {
        MulMonotone(k, q, hop);
      } else {
        MulMonotone(q + 1, k, hop);
        assert (q + 1) * hop == q * hop + hop;
      }
    }
  }
}

/** Division facts that the verifier needs spelled out. */
module Arithmetic {
  lemma Divide(r: int, c: int, w: int)
    requires 0 <= c < w
    ensures (r * w + c) / w == r && (r * w + c) % w == c
  {
    var q, m := (r * w + c) / w, (r * w + c) % w;
    assert r * w + c == q * w + m;
    assert (r - q) * w == m - c;
    MultipleSize(r - q, w);
  }

  lemma MultipleSize(d: int, w: int)
    requires w > 0
    ensures d >= 1 ==> d * w >= w
    ensures d <= -1 ==> d * w <= -w
  {
    if d >= 1 {
      assert (d - 1) * w >= 0;
    } else if d <= -1 {
      assert (-1 - d) * w >= 0;
    }
  }
}

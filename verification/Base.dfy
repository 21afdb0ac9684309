/** Value types shared by every component of the model. */
module Base {
  datatype Option<+T> = None | Some(value: T)

  /** One octet of a frame whose fields are combined arithmetically. */
  type byte = b: int | 0 <= b < 256

  function Max(a: int, b: int): int {
    if a < b then b else a
  }

  function Min(a: int, b: int): int {
    if a < b then a else b
  }

  /** Two bytes as one number, the high one first. */
  function Pair(hi: int, lo: int): int {
    256 * hi + lo
  }

  /** Going round once. */
  lemma Wraps(x: nat, n: nat)
    requires 0 < n && x < 2 * n
    ensures x % n == if x < n then x else x - n
  {
    var q, r := x / n, x % n;
    assert x == q * n + r && 0 <= r < n;
    assert q < 2 by {
      assert q >= 2 ==> q * n >= 2 * n;
    }
    assert q == 0 || q == 1;
  }
}

/** Machine integer widths and small helpers shared by every module of the model. */
module Common {

  /** Rust's `u32`. */
  type u32 = x: int | 0 <= x < 0x1_0000_0000

  /** Rust's `u64` (`wgpu::BufferAddress`). */
  type u64 = x: int | 0 <= x < 0x1_0000_0000_0000_0000

  /** Rust's `u8`: one byte of GPU or host memory. */
  type byte = x: int | 0 <= x < 0x100

  /** Rust's `Option`. */
  datatype Option<+T> = None | Some(value: T) {
    function GetOr(default: T): T {
      match this
      case Some(v) => v
      case None => default
    }
  }

  // ------------------------------------------------ arithmetic on offsets

  lemma MulMonotonic(a: nat, b: nat, k: nat)
    requires a <= b
    ensures a * k <= b * k
  {
    assert b * k == a * k + (b - a) * k;
  }

  lemma MulStrictlyMonotonic(a: nat, b: nat, k: nat)
    requires a < b && 0 < k
    ensures a * k < b * k
  {
    assert b * k == a * k + (b - a) * k;
  }

  /** `(n + 1) * k == n * k + k`: row `n` of pitch `k` starts where the first `n` rows end. */
  lemma MulSucc(n: nat, k: nat)
    ensures (n + 1) * k == n * k + k
  {
  }

  /** A row of `w <= k` bytes starting at row `r < rows` of pitch `k` ends inside the first `rows` rows. */
  lemma RowInside(r: nat, rows: nat, k: nat, w: nat)
    requires r < rows && w <= k
    ensures r * k + w <= rows * k
  {
    MulSucc(r, k);
    MulMonotonic(r + 1, rows, k);
  }

  // ----------------------------------------------------------- sequences

  /** Dropping the last element of a join drops it from the second part. */
  lemma DropLastOfConcat<T>(a: seq<T>, b: seq<T>)
    requires |b| > 0
    ensures (a + b)[..|a + b| - 1] == a + b[..|b| - 1]
    ensures (a + b)[|a + b| - 1] == b[|b| - 1]
  {
    assert (a + b)[..|a + b| - 1] == a + b[..|b| - 1];
  }

  /** Joining sequences is associative. */
  lemma ConcatAssociative<T>(a: seq<T>, b: seq<T>, c: seq<T>)
    ensures (a + b) + c == a + (b + c)
  {
  }
}

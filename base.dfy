/**
 * Python-level vocabulary shared by every kernel wrapper: the exceptions the
 * host code raises before it launches anything, a Result type for them, and
 * the integer helpers (products of shapes, ceiling division, truncation,
 * slicing and indexing of shape tuples) whose Python semantics the dispatch
 * arithmetic depends on.
 */
module Base {

  datatype Option<T> = None | Some(value: T)

  /** What a refused call was refused for. */
  datatype Reason =
    | NoCTypeMapping        // map2ctype has no entry for the dtype
    | DtypeMismatch         // two arrays, or an array and the instance, disagree on dtype
    | SizeMismatch          // element counts differ
    | NotTwoDimensional     // transpose input is not 2-D
    | ShapeNotFlipped       // transpose output is not the flipped input shape
    | IntOnly               // transpose supports int32 only
    | NotAtLeast3D          // fill3D input of rank < 3
    | NdimMismatch          // ranks differ
    | LeadingDimsMismatch   // batch dimensions differ
    | NoOverlap             // an axis of fill3D has no overlap
    | LengthsMismatch       // fill3D's two overlap lengths disagree
    | RankBelowTwo          // crop_pad_2d_simple input of rank < 2
    | UnsupportedDtype      // the kernel is compiled for other dtypes only
    | InvalidKernelType     // Gaussian taps neither 'float' nor 'double'
    | TmpMismatch           // convolution scratch differs in shape or dtype
    | UnsupportedRank       // rank the kernel does not handle
    | KernelTooLarge        // Gaussian radius beyond the tap buffer
    | SharedMemoryExceeded  // shared-memory footprint beyond the per-block budget
    | UnpackMismatch        // tuple unpacking with the wrong number of values
    | ShiftNot2D            // shift vector without exactly two components
    | BroadcastMismatch     // numpy cannot broadcast two operands together

  /** One constructor per Python exception class raised by the host code. */
  datatype Error =
    | ValueError(why: Reason)
    | AssertionError(why: Reason)
    | NotImplementedError(why: Reason)
    | MemoryError(why: Reason)
    | IndexError
    | ZeroDivisionError
    | UnboundLocalError     // a local read before any branch assigned it

  datatype Result<T> = Ok(value: T) | Err(error: Error)

  function Min(a: int, b: int): int { if a <= b then a else b }

  /** numpy's `prod` over a shape tuple; the empty product is 1. */
  function Prod(s: seq<nat>): nat
  {
    if s == [] then 1 else s[0] * Prod(s[1..])
  }

  lemma {:induction false} ProdAppend(a: seq<nat>, b: seq<nat>)
    ensures Prod(a + b) == Prod(a) * Prod(b)
  {
    if a == [] {
      assert a + b == b;
    } else {
      assert (a + b)[1..] == a[1..] + b;
      ProdAppend(a[1..], b);
    }
  }

  lemma ProdSingleton(n: nat)
    ensures Prod([n]) == n
  {
    assert [n][1..] == [];
  }

  /** The element count splits around any axis k: prefix * extent * suffix. */
  lemma ProdAround(s: seq<nat>, k: nat)
    requires k < |s|
    ensures Prod(s[..k]) * s[k] * Prod(s[k + 1..]) == Prod(s)
  {
    var pre, rest := s[..k], [s[k]] + s[k + 1..];
    assert s == pre + rest;
    ProdAppend(pre, rest);
    assert rest[1..] == s[k + 1..];
    assert Prod(rest) == s[k] * Prod(s[k + 1..]);
    MulAssoc(Prod(pre), s[k], Prod(s[k + 1..]));
  }

  lemma MulAssoc(a: int, b: int, c: int)
    ensures a * b * c == a * (b * c)
  {
  }

  /**
   * `(n + b - 1) // b`, the grid extent every wrapper computes.  For a
   * positive divisor Dafny's division is Python's floor division.
   */
  function CeilDiv(n: nat, b: nat): (q: nat)
    requires b > 0
    ensures q * b >= n
    ensures q == 0 || (q - 1) * b < n
  {
    var q := (n + b - 1) / b;
    assert q * b + (n + b - 1) % b == n + b - 1;
    q
  }

  /** Python's `int(x)` for a float: truncation toward zero. */
  function Trunc(x: real): (t: int)
    ensures 0.0 <= x ==> 0 <= t && t as real <= x < t as real + 1.0
    ensures x < 0.0 ==> t <= 0 && t as real - 1.0 < x <= t as real
  {
    if x >= 0.0 then x.Floor else -((-x).Floor)
  }

  /** Python's normalisation of one slice bound against a sequence length. */
  function SliceBound(i: int, n: nat): (b: nat)
    ensures b <= n
  {
    if i < 0 then (if i + n < 0 then 0 else i + n) else if i > n then n else i
  }

  /** `s[lo:hi]` with Python's negative and out-of-range bounds. */
  function PySlice<T>(s: seq<T>, lo: int, hi: int): seq<T>
  {
    var l, h := SliceBound(lo, |s|), SliceBound(hi, |s|);
    if l <= h then s[l..h] else []
  }

  /** `s[i]`, raising IndexError outside `-len(s) <= i < len(s)`. */
  function PyIndex<T>(s: seq<T>, i: int): (r: Result<T>)
    ensures r.Ok? <==> -|s| <= i < |s|
    ensures r.Ok? ==> r.value == s[if i < 0 then i + |s| else i]
  {
    if 0 <= i < |s| then Ok(s[i])
    else if -|s| <= i < 0 then Ok(s[i + |s|])
    else Err(IndexError)
  }

  function Digit(d: nat): char
    requires d < 10
  {
    "0123456789"[d]
  }

  predicate IsDigit(c: char) { '0' <= c <= '9' }

  /** `'{}'.format(n)` for a non-negative integer. */
  function DecimalString(n: nat): (s: string)
    ensures 0 < |s|
    ensures forall i :: 0 <= i < |s| ==> IsDigit(s[i])
    ensures n < 10 <==> |s| == 1
  {
    if n < 10 then [Digit(n)] else DecimalString(n / 10) + [Digit(n % 10)]
  }

  lemma DigitInjective(a: nat, b: nat)
    requires a < 10 && b < 10 && Digit(a) == Digit(b)
    ensures a == b
  {
  }

  /** Distinct numbers print differently, so a number in a cache key is recoverable. */
  lemma {:induction false} DecimalStringInjective(n: nat, m: nat)
    requires DecimalString(n) == DecimalString(m)
    ensures n == m
  {
    var s := DecimalString(n);
    if n < 10 || m < 10 {
      assert n < 10 && m < 10;
      assert s == [Digit(n)] && s == [Digit(m)];
      DigitInjective(n, m);
    } else {
      var p, q := DecimalString(n / 10), DecimalString(m / 10);
      assert s == p + [Digit(n % 10)] && s == q + [Digit(m % 10)];
      assert |p| == |q|;
      assert p == s[..|s| - 1] == q;
      DecimalStringInjective(n / 10, m / 10);
      DigitInjective(n % 10, m % 10);
    }
  }
}

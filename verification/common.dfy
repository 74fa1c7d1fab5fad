/**
 Shared vocabulary of the audio pipeline model: fixed-width integers as the C++
 code stores them, C++ truncating division, failure-carrying results, and the
 decimal rendering that `std::to_string` performs on non-negative numbers.
 */
module Common {

  /** A signed 16-bit PCM sample (`int16_t`). */
  type Int16 = x: int | -32768 <= x <= 32767

  /** One octet of a byte stream. */
  type Byte = x: int | 0 <= x < 256

  const TwoTo16: int := 0x1_0000
  const TwoTo32: int := 0x1_0000_0000

  /** Conversion to `uint32_t`: C++ reduces modulo 2^32 (also for negative values). */
  function U32(x: int): (r: int)
    ensures 0 <= r < TwoTo32
    ensures (x - r) % TwoTo32 == 0
    ensures 0 <= x < TwoTo32 ==> r == x
  {
    x % TwoTo32
  }

  /** Conversion to `uint16_t`. */
  function U16(x: int): (r: int)
    ensures 0 <= r < TwoTo16
    ensures (x - r) % TwoTo16 == 0
    ensures 0 <= x < TwoTo16 ==> r == x
  {
    x % TwoTo16
  }

  /** C++ integer division, which truncates toward zero. */
  function TruncDiv(a: int, d: int): (q: int)
    requires d > 0
    ensures a >= 0 ==> 0 <= d * q <= a < d * q + d
    ensures a < 0 ==> d * q - d < a <= d * q <= 0
  {
    DivBounds(if a >= 0 then a else -a, d);
    if a >= 0 then a / d else -((-a) / d)
  }

  lemma DivBounds(n: nat, d: int)
    requires d > 0
    ensures 0 <= d * (n / d) <= n < d * (n / d) + d
  {
    var q, r := n / d, n % d;
    assert n == d * q + r;
    assert 0 <= r < d;
  }

  datatype Option<+T> = None | Some(value: T) {
    function GetOr(default: T): T {
      match this
      case Some(v) => v
      case None => default
    }
  }

  datatype Result<+R, +E> = Success(value: R) | Failure(error: E)

  /** Decimal digits of `n`, most significant first, as `std::to_string` writes them. */
  function NatToString(n: nat): (s: string)
    ensures |s| >= 1
    ensures forall i :: 0 <= i < |s| ==> '0' <= s[i] <= '9'
    ensures n < 10 ==> s == [DigitChar(n)]
    ensures DecimalValue(s) == n
    ensures |s| > 1 ==> s[0] != '0'
  {
    if n < 10 then [DigitChar(n)]
    else
      var prefix := NatToString(n / 10);
      var s := prefix + [DigitChar(n % 10)];
      assert s[..|s| - 1] == prefix;
      s
  }

  /** The number a string of decimal digits denotes, most significant digit first. */
  function DecimalValue(s: string): nat
  {
    if |s| == 0 then 0
    else
      var d := (s[|s| - 1] as int) - ('0' as int);
      DecimalValue(s[..|s| - 1]) * 10 + (if 0 <= d < 10 then d else 0)
  }

  /** Different numbers get different strings, so channel topics and file names built from them never collide. */
  lemma NatToStringInjective(m: nat, n: nat)
    requires NatToString(m) == NatToString(n)
    ensures m == n
  {
    assert DecimalValue(NatToString(m)) == m;
  }

  function DigitChar(d: nat): (c: char)
    requires d < 10
    ensures '0' <= c <= '9'
  {
    (('0' as int) + d) as char
  }

  /** The sum of a sequence of integers. */
  function Sum(xs: seq<int>): int
  {
    if |xs| == 0 then 0 else Sum(xs[..|xs| - 1]) + xs[|xs| - 1]
  }

  /** Concatenation of a sequence of sequences, in order. */
  function Concat<T>(xss: seq<seq<T>>): seq<T>
  {
    if |xss| == 0 then [] else Concat(xss[..|xss| - 1]) + xss[|xss| - 1]
  }

  /** The lengths of the parts of a concatenation add up. */
  lemma {:induction false} ConcatLength<T>(xss: seq<seq<T>>)
    ensures |Concat(xss)| == Sum(seq(|xss|, i requires 0 <= i < |xss| => |xss[i]|))
  {
    if |xss| > 0 {
      var n := |xss|;
      ConcatLength(xss[..n - 1]);
      var lens := seq(n, i requires 0 <= i < n => |xss[i]|);
      var lens' := seq(n - 1, i requires 0 <= i < n - 1 => |xss[..n - 1][i]|);
      assert lens[..n - 1] == lens';
    }
  }

  /** Concatenation distributes over appending one more part. */
  lemma ConcatAppend<T>(xss: seq<seq<T>>, ys: seq<T>)
    ensures Concat(xss + [ys]) == Concat(xss) + ys
  {
    assert (xss + [ys])[..|xss|] == xss;
  }

  /** Concatenation of a split list of parts is the concatenation of the halves. */
  lemma {:induction false} ConcatSplit<T>(xss: seq<seq<T>>, yss: seq<seq<T>>)
    ensures Concat(xss + yss) == Concat(xss) + Concat(yss)
    decreases |yss|
  {
    if |yss| == 0 {
      assert xss + yss == xss;
    } else {
      var n := |yss|;
      var init, last := yss[..n - 1], yss[n - 1];
      assert yss == init + [last];
      assert xss + yss == (xss + init) + [last];
      calc {
        Concat(xss + yss);
        { ConcatAppend(xss + init, last); }
        Concat(xss + init) + last;
        { ConcatSplit(xss, init); }
        Concat(xss) + Concat(init) + last;
        { ConcatAppend(init, last); }
        Concat(xss) + Concat(yss);
      }
    }
  }

  /** Concatenation peels its first part off the front. */
  lemma ConcatCons<T>(x: seq<T>, yss: seq<seq<T>>)
    ensures Concat([x] + yss) == x + Concat(yss)
  {
    ConcatSplit([x], yss);
    assert Concat([x]) == x by {
      assert [x][..0] == [];
    }
  }
}

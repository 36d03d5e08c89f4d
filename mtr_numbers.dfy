/**
 * The byte-level helpers of the `mtr --raw` decoder (go-mtr, mtr.go):
 * `bytes.IndexByte`, `parseByteNum` and `parseHostnum`.
 */
module MtrNumbers {
  import opened Wrappers

  newtype byte = b: int | 0 <= b < 256

  const Newline: byte := 10
  const Space: byte := 32
  const Zero: byte := 48

  /** Position of the first `b` in `s`, or -1 (Go's `bytes.IndexByte`). */
  function IndexByte(s: seq<byte>, b: byte): (r: int)
    ensures -1 <= r < |s|
    ensures r == -1 <==> b !in s
    ensures r >= 0 ==> s[r] == b && b !in s[..r]
  {
    if |s| == 0 then -1
    else if s[0] == b then 0
    else
      var k := IndexByte(s[1..], b);
      if k == -1 then -1
      else
        assert s[..k + 1] == [s[0]] + s[1..][..k];
        k + 1
  }

  /** What one byte contributes to `parseByteNum`: its value minus ASCII `0`. */
  function DigitValue(b: byte): int {
    b as int - Zero as int
  }

  predicate IsDigit(b: byte) {
    Zero <= b <= Zero + 9
  }

  /**
   * The accumulator of `parseByteNum` after consuming all of `s`:
   * i := 10 * i + v - 48 for every byte v, from i = 0.
   */
  function ByteNum(s: seq<byte>): int
    decreases |s|
  {
    if |s| == 0 then 0 else 10 * ByteNum(s[..|s| - 1]) + DigitValue(s[|s| - 1])
  }

  /** mtr.go:59-65, the loop as written; it rejects no byte. */
  method ParseByteNum(input: seq<byte>) returns (i: int)
    ensures i == ByteNum(input)
  {
    i := 0;
    for k := 0 to |input|
      invariant i == ByteNum(input[..k])
    {
      assert input[..k + 1][..k] == input[..k];
      i := 10 * i + input[k] as int - 48;
    }
    assert input[..|input|] == input;
  }

  function Pow10(n: nat): (r: nat)
    ensures r >= 1
  {
    if n == 0 then 1 else 10 * Pow10(n - 1)
  }

  /** Positional reading from the front: byte k weighs 10^(|s|-1-k). */
  function Positional(s: seq<byte>): int
    decreases |s|
  {
    if |s| == 0 then 0 else DigitValue(s[0]) * Pow10(|s| - 1) + Positional(s[1..])
  }

  lemma {:induction false} PositionalSnoc(s: seq<byte>, b: byte)
    ensures Positional(s + [b]) == 10 * Positional(s) + DigitValue(b)
    decreases |s|
  {
    if |s| == 0 {
      assert s + [b] == [b];
    } else {
      assert (s + [b])[1..] == s[1..] + [b];
      PositionalSnoc(s[1..], b);
      calc {
        Positional(s + [b]);
        DigitValue(s[0]) * Pow10(|s|) + Positional(s[1..] + [b]);
        DigitValue(s[0]) * (10 * Pow10(|s| - 1)) + 10 * Positional(s[1..]) + DigitValue(b);
        { assert DigitValue(s[0]) * (10 * Pow10(|s| - 1)) == 10 * (DigitValue(s[0]) * Pow10(|s| - 1)); }
        10 * Positional(s) + DigitValue(b);
      }
    }
  }

  /** Every byte, digit or not, contributes `v - 48` at its decimal place. */
  lemma {:induction false} ByteNumIsPositional(s: seq<byte>)
    ensures ByteNum(s) == Positional(s)
    decreases |s|
  {
    if |s| > 0 {
      var init := s[..|s| - 1];
      ByteNumIsPositional(init);
      PositionalSnoc(init, s[|s| - 1]);
      assert init + [s[|s| - 1]] == s;
    }
  }

  /** On ASCII digits, `parseByteNum` is a non-negative number of at most |s| digits. */
  lemma {:induction false} ByteNumOfDigits(s: seq<byte>)
    requires forall k :: 0 <= k < |s| ==> IsDigit(s[k])
    ensures 0 <= ByteNum(s) < Pow10(|s|)
    decreases |s|
  {
    if |s| > 0 {
      ByteNumOfDigits(s[..|s| - 1]);
    }
  }

  /** The decimal rendering of a natural number (Go's `strconv.Itoa` on n >= 0). */
  function Decimal(n: nat): (r: seq<byte>)
    ensures |r| > 0
    ensures forall k :: 0 <= k < |r| ==> IsDigit(r[k])
    decreases n
  {
    if n < 10 then [Zero + n as byte] else Decimal(n / 10) + [Zero + (n % 10) as byte]
  }

  /** `parseByteNum` inverts the decimal rendering. */
  lemma {:induction false} ByteNumOfDecimal(n: nat)
    ensures ByteNum(Decimal(n)) == n
    decreases n
  {
    if n >= 10 {
      var d := Decimal(n / 10) + [Zero + (n % 10) as byte];
      assert d[..|d| - 1] == Decimal(n / 10);
      ByteNumOfDecimal(n / 10);
    }
  }

  /**
   * mtr.go:67-70: the hop number between index 2 and the first space at or after
   * index 2, and the index just past that space. None where Go faults: `line[2:]`
   * on a line shorter than 2 bytes, or `line[2:1]` when no space follows.
   */
  function ParseHostnum(line: seq<byte>): (r: Option<(int, nat)>)
    ensures r.None? <==> |line| < 2 || Space !in line[2..]
    ensures r.Some? ==>
      var (num, contentIdx) := r.value;
      && 3 <= contentIdx <= |line|
      && line[contentIdx - 1] == Space
      && Space !in line[2..contentIdx - 1]
      && num == ByteNum(line[2..contentIdx - 1])
  {
    if |line| < 2 then None
    else
      var finalFieldIdx := IndexByte(line[2..], Space) + 2;
      if finalFieldIdx < 2 then None
      else
        assert line[2..][..finalFieldIdx - 2] == line[2..finalFieldIdx];
        Some((ByteNum(line[2..finalFieldIdx]), finalFieldIdx + 1))
  }
}

/** Small datatypes and the decimal numerals shared by the other modules. */
module Common {

  datatype Option<+T> = None | Some(value: T)

  /** Unsigned 64-bit integers: the range of `uint64_t`, `size_t` and `C4SequenceNumber`. */
  const TWO_64: int := 0x1_0000_0000_0000_0000
  type uint64 = n: int | 0 <= n < TWO_64

  function Min(a: int, b: int): int { if a <= b then a else b }

  function Max(a: int, b: int): int { if a >= b then a else b }

  predicate IsDigit(c: char) { '0' <= c <= '9' }

  predicate AllDigits(s: string) { forall i :: 0 <= i < |s| ==> IsDigit(s[i]) }

  /** The number a digit string denotes, with no bound. */
  function DecimalValue(s: string): (n: nat)
    requires AllDigits(s)
  {
    if s == [] then 0 else 10 * DecimalValue(s[..|s| - 1]) + (s[|s| - 1] - '0') as int
  }

  /** What `snprintf("%llu")` writes. */
  function ToDecimal(n: nat): (s: string)
    ensures s != [] && AllDigits(s)
    ensures DecimalValue(s) == n
  {
    if n < 10 then [n as char + '0'] else ToDecimal(n / 10) + [(n % 10) as char + '0']
  }

  /** `slice_istream::readDecimal`: the leading digits as a 64-bit number, and the text after them. */
  function ReadDecimal(s: string): (r: (uint64, string))
    ensures r.1 == [] <==> AllDigits(s)
    ensures AllDigits(s) ==> r.0 == DecimalValue(s) % TWO_64
  {
    var k := DigitsEnd(s);
    assert k == |s| ==> s[..k] == s;
    (DecimalValue(s[..k]) % TWO_64, s[k..])
  }

  /** The length of the longest prefix of `s` made of digits. */
  function DigitsEnd(s: string): (k: nat)
    ensures k <= |s| && AllDigits(s[..k])
    ensures k < |s| ==> !IsDigit(s[k])
  {
    if s != [] && IsDigit(s[0]) then
      var k := DigitsEnd(s[1..]);
      assert forall i :: 0 < i < 1 + k ==> s[i] == s[1..][..k][i - 1];
      1 + k
    else 0
  }
}

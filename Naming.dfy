/** Index naming: a context `name` at version `v` lives in the physical index
    `name + "_v" + decimal(v)` (Python's '%s_v%d'), addressed on the engine's
    host as `host + "/" + that name`. */
module Naming {
  import opened Values

  predicate IsDigit(c: char) {
    '0' <= c <= '9'
  }

  predicate AllDigits(s: string) {
    forall i :: 0 <= i < |s| ==> IsDigit(s[i])
  }

  function DigitChar(d: nat): (c: char)
    requires d < 10
    ensures IsDigit(c)
  {
    (48 + d) as char
  }

  function DigitValue(c: char): (d: nat)
    requires IsDigit(c)
    ensures d < 10
  {
    (c as int - 48) as nat
  }

  /** The decimal digits of `n`, most significant first, without leading zeros. */
  function NatToDecimal(n: nat): (s: string)
    ensures |s| >= 1 && AllDigits(s)
    ensures s[0] == '0' ==> n == 0
    decreases n
  {
    if n < 10 then [DigitChar(n)] else NatToDecimal(n / 10) + [DigitChar(n % 10)]
  }

  /** The value of a string of decimal digits. */
  function DecimalValue(s: string): nat
    requires AllDigits(s)
    decreases |s|
  {
    if s == [] then 0 else DecimalValue(s[..|s| - 1]) * 10 + DigitValue(s[|s| - 1])
  }

  lemma {:induction false} DecimalRoundTrip(n: nat)
    ensures DecimalValue(NatToDecimal(n)) == n
    decreases n
  {
    var s := NatToDecimal(n);
    if n >= 10 {
      DecimalRoundTrip(n / 10);
      assert s[..|s| - 1] == NatToDecimal(n / 10);
    }
  }

  /** Python's '%d' of an integer: a minus sign for negative values. */
  function IntToDecimal(i: int): (s: string)
    ensures |s| >= 1
    ensures i >= 0 <==> AllDigits(s)
  {
    if i < 0 then
      var s := "-" + NatToDecimal(-i);
      assert !IsDigit(s[0]);
      s
    else NatToDecimal(i)
  }

  /** Reads back what '%d' wrote: an optional minus sign and at least one digit. */
  function ParseInt(s: string): Option<int> {
    if |s| >= 1 && AllDigits(s) then Some(DecimalValue(s))
    else if |s| >= 2 && s[0] == '-' && AllDigits(s[1..]) then
      var d: int := DecimalValue(s[1..]);
      Some(-d)
    else None
  }

  lemma IntRoundTrip(i: int)
    ensures ParseInt(IntToDecimal(i)) == Some(i)
  {
    DecimalRoundTrip(if i < 0 then -i else i);
    if i < 0 {
      assert IntToDecimal(i)[1..] == NatToDecimal(-i);
    }
  }

  /** The version encoded in `s` when `s` is an index name of context `name`. */
  function ParseIndexName(name: string, s: string): Option<int> {
    if |s| >= |name| + 2 && s[..|name|] == name && s[|name|..|name| + 2] == "_v"
    then ParseInt(s[|name| + 2..])
    else None
  }

  /** The physical index of context `name` at version `v` (models.py:75). */
  function IndexName(name: string, v: int): (r: string)
    ensures |r| > |name| + 2 && r[..|name|] == name && r[|name|..|name| + 2] == "_v"
    ensures ParseIndexName(name, r) == Some(v)
  {
    var r := name + "_v" + IntToDecimal(v);
    assert r[|name| + 2..] == IntToDecimal(v);
    IntRoundTrip(v);
    r
  }

  /** Two versions of one context never share a physical index. */
  lemma IndexNameInjective(name: string, v1: int, v2: int)
    requires IndexName(name, v1) == IndexName(name, v2)
    ensures v1 == v2
  {
    assert ParseIndexName(name, IndexName(name, v1)) == Some(v1);
  }

  /** The URL of the physical index on the engine host (models.py:71). */
  function IndexEndpoint(host: string, name: string, v: int): (r: string)
    ensures r == host + "/" + IndexName(name, v)
  {
    host + "/" + name + "_v" + IntToDecimal(v)
  }
}

/**
 * The display text of the counter: `snprintf(value_str, 4, "%d", value)`
 * into a 4-byte buffer (osd.c:138-139). `%d` of a `uint8_t` (promoted to
 * `int`, never negative) is its decimal numeral; `snprintf` keeps at most
 * `size - 1` characters so that the terminating NUL fits.
 */
module Format {
  import opened Bytes

  predicate IsDigit(c: char) {
    '0' <= c <= '9'
  }

  function DigitValue(c: char): nat
    requires IsDigit(c)
  {
    c as int - '0' as int
  }

  function DigitChar(d: nat): (c: char)
    requires d < 10
    ensures IsDigit(c) && DigitValue(c) == d
  {
    ('0' as int + d) as char
  }

  /** The numeral `%d` prints for a non-negative integer: at least one digit,
      only digits, and a leading `0` only for zero itself. */
  function Decimal(n: nat): (s: string)
    ensures |s| >= 1
    ensures forall i :: 0 <= i < |s| ==> IsDigit(s[i])
    ensures s[0] == '0' <==> n == 0
    decreases n
  {
    if n < 10 then [DigitChar(n)] else Decimal(n / 10) + [DigitChar(n % 10)]
  }

  /** Reading a numeral back, most significant digit first. */
  function Parse(s: string): nat
    requires forall i :: 0 <= i < |s| ==> IsDigit(s[i])
  {
    if s == [] then 0 else Parse(s[..|s| - 1]) * 10 + DigitValue(s[|s| - 1])
  }

  /** The numeral denotes the number it was printed from. */
  lemma {:induction false} ParseDecimal(n: nat)
    ensures Parse(Decimal(n)) == n
    decreases n
  {
    var s := Decimal(n);
    if n >= 10 {
      ParseDecimal(n / 10);
      assert s[..|s| - 1] == Decimal(n / 10);
    }
  }

  /** Different counter values never print the same text. */
  lemma DecimalInjective(m: nat, n: nat)
    ensures Decimal(m) == Decimal(n) <==> m == n
  {
    ParseDecimal(m);
    ParseDecimal(n);
  }

  /** A byte prints with one, two or three digits, by its magnitude. */
  lemma ByteWidth(v: UInt8)
    ensures |Decimal(v)| == if v < 10 then 1 else if v < 100 then 2 else 3
  {
    if v >= 10 {
      assert |Decimal(v)| == |Decimal(v / 10)| + 1;
      if v >= 100 {
        assert |Decimal(v / 10)| == |Decimal(v / 100)| + 1;
      }
    }
  }

  /** What `snprintf(buf, size, ...)` leaves in `buf` (without its NUL) and
      the length it returns, for a formatted text `s`. */
  datatype Formatted = Formatted(text: string, length: nat)

  function Snprintf(size: nat, s: string): (f: Formatted)
    ensures f.length == |s|
    ensures f.text <= s
    ensures size > 0 ==> |f.text| < size
    ensures f.text == s <==> |s| < size || s == []
    ensures size > 0 && |s| >= size ==> f.text == s[..size - 1]
  {
    if size == 0 then Formatted([], |s|)
    else if |s| < size then Formatted(s, |s|)
    else Formatted(s[..size - 1], |s|)
  }

  /** The size of `value_str` (osd.c:138). */
  const ValueBufferSize: nat := 4

  /** The text handed to the display for a counter value. */
  function ValueText(v: UInt8): string {
    Snprintf(ValueBufferSize, Decimal(v)).text
  }

  /** Every byte's numeral fits the 4-byte buffer with its NUL: `snprintf`
      never truncates it, so the display receives the full numeral. */
  lemma ValueFitsBuffer(v: UInt8)
    ensures Snprintf(ValueBufferSize, Decimal(v)).length < ValueBufferSize
    ensures ValueText(v) == Decimal(v)
  {
    ByteWidth(v);
  }

  /** Two counter values show the same text only if they are equal. */
  lemma ValueTextInjective(u: UInt8, v: UInt8)
    ensures ValueText(u) == ValueText(v) <==> u == v
  {
    ValueFitsBuffer(u);
    ValueFitsBuffer(v);
    DecimalInjective(u, v);
  }

  lemma ValueTextExamples()
    ensures ValueText(0) == "0" && ValueText(7) == "7"
    ensures ValueText(42) == "42" && ValueText(255) == "255"
  {
    ValueFitsBuffer(0);
    ValueFitsBuffer(7);
    ValueFitsBuffer(42);
    ValueFitsBuffer(255);
    assert Decimal(42) == Decimal(4) + ['2'];
    assert Decimal(255) == Decimal(25) + ['5'];
    assert Decimal(25) == Decimal(2) + ['5'];
  }
}

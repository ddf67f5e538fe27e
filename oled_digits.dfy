// The characters OLED_ShowNum and OLED_ShowHexNum draw for a number, and
// what a reader of the panel gets back from them.
module OledDigits {
  import opened MachineInts

  /** ' ', '0' and 'A'. */
  const Blank: u8 := 32
  const Zero: u8 := 48
  const LetterA: u8 := 65

  /** Digit k (counting from the least significant, 0) of n in the given base. */
  function DigitAt(n: nat, base: nat, k: nat): nat
    requires base > 0
  {
    n / Power(base, k) % base
  }

  /** The len lowest digits of n, most significant first. */
  function DigitsOf(n: nat, base: nat, len: nat): (ds: seq<nat>)
    requires base > 0
    ensures |ds| == len
  {
    seq(len, t requires 0 <= t < len => DigitAt(n, base, len - 1 - t))
  }

  /** The number a digit string, most significant first, stands for. */
  function ValueOf(ds: seq<nat>, base: nat): nat
  {
    if ds == [] then 0 else ValueOf(ds[..|ds| - 1], base) * base + ds[|ds| - 1]
  }

  /** Digit j + 1 of n is digit j of n / base. */
  lemma DigitShift(n: nat, base: nat, j: nat)
    requires base > 0
    ensures DigitAt(n, base, j + 1) == DigitAt(n / base, base, j)
  {
    assert Power(base, j + 1) == base * Power(base, j);
    DivDiv(n, base, Power(base, j));
  }

  lemma DigitsPrefix(n: nat, base: nat, len: nat)
    requires base > 0 && len > 0
    ensures DigitsOf(n, base, len)[..len - 1] == DigitsOf(n / base, base, len - 1)
  {
    var ds, es := DigitsOf(n, base, len), DigitsOf(n / base, base, len - 1);
    forall t | 0 <= t < len - 1
      ensures ds[t] == es[t]
    {
      DigitShift(n, base, len - 2 - t);
    }
  }

  /** Reading the len lowest digits back gives n modulo base^len. */
  lemma {:induction false} DigitsValue(n: nat, base: nat, len: nat)
    requires base > 0
    ensures ValueOf(DigitsOf(n, base, len), base) == n % Power(base, len)
    decreases len
  {
    if len > 0 {
      var ds := DigitsOf(n, base, len);
      var p := Power(base, len - 1);
      DigitsValue(n / base, base, len - 1);
      DigitsPrefix(n, base, len);
      assert ValueOf(ds[..len - 1], base) == (n / base) % p;
      assert ds[len - 1] == DigitAt(n, base, 0) == n % base;
      ModMulSplit(n, base, p);
      assert Power(base, len) == base * p;
    }
  }

  /** The digit a character stands for: '0'..'9', 'A'..'F', and 0 for anything else (a blank). */
  function CharDigit(ch: u8): nat
  {
    if Zero <= ch <= Zero + 9 then ch - Zero
    else if LetterA <= ch <= LetterA + 5 then ch - LetterA + 10
    else 0
  }

  function CharDigits(chars: seq<u8>): (ds: seq<nat>)
    ensures |ds| == |chars|
  {
    seq(|chars|, i requires 0 <= i < |chars| => CharDigit(chars[i]))
  }

  /**
   * Digit t of OLED_ShowNum: `(num / oled_pow(10, len - t - 1)) % 10`,
   * where oled_pow wraps in uint32_t. Below 32 digits the divisor is never
   * zero.
   */
  function DecimalDigit(num: u32, len: nat, t: nat): (d: nat)
    requires t < len <= 32
    ensures d < 10
  {
    TenPowerModNonZero(len - t - 1);
    (num / (Power(10, len - t - 1) % Two32)) % 10
  }

  /**
   * OLED_ShowNum's enshow flag on reaching position t: set by the first
   * non-zero digit before t that is not the last position.
   */
  predicate Shown(num: u32, len: nat, t: nat)
    requires t <= len <= 32
    decreases t
  {
    t > 0 && (Shown(num, len, t - 1) || (t - 1 < len - 1 && DecimalDigit(num, len, t - 1) != 0))
  }

  /** Once set, enshow stays set; a non-zero digit before the last position sets it. */
  lemma {:induction false} ShownMonotone(num: u32, len: nat, s: nat, t: nat)
    requires s <= t <= len <= 32
    ensures Shown(num, len, s) ==> Shown(num, len, t)
    ensures s < t && s < len - 1 && DecimalDigit(num, len, s) != 0 ==> Shown(num, len, t)
    decreases t - s
  {
    if s < t {
      ShownMonotone(num, len, s, t - 1);
      if s == t - 1 {
        assert Shown(num, len, s) || (s < len - 1 && DecimalDigit(num, len, s) != 0) ==> Shown(num, len, t);
      }
    }
  }

  /** Position t is drawn as a blank: enshow is still 0, it is not the last, and its digit is 0. */
  predicate LeadingBlank(num: u32, len: nat, t: nat)
    requires t < len <= 32
  {
    t < len - 1 && !Shown(num, len, t) && DecimalDigit(num, len, t) == 0
  }

  /** The len characters OLED_ShowNum draws. */
  function NumChars(num: u32, len: nat): (chars: seq<u8>)
    requires len <= 32
    ensures |chars| == len
  {
    seq<u8>(len, t requires 0 <= t < len =>
      if LeadingBlank(num, len, t) then Blank else Zero + DecimalDigit(num, len, t))
  }

  /**
   * Every character is a blank or a decimal digit; the blanks form a
   * prefix; the last character is always a digit; and the first digit
   * after the blanks is a 0 only when it is the last character.
   */
  lemma NumCharsShape(num: u32, len: nat)
    requires len <= 32
    ensures var chars := NumChars(num, len);
      (forall t :: 0 <= t < len ==> chars[t] == Blank || Zero <= chars[t] <= Zero + 9) &&
      (len > 0 ==> chars[len - 1] != Blank) &&
      (forall s, t :: 0 <= s < t < len && chars[t] == Blank ==> chars[s] == Blank) &&
      (forall t :: 0 <= t < len - 1 && chars[t] != Blank && (t == 0 || chars[t - 1] == Blank) ==> chars[t] != Zero)
  {
    var chars := NumChars(num, len);
    forall s, t | 0 <= s < t < len && chars[t] == Blank
      ensures chars[s] == Blank
    {
      assert LeadingBlank(num, len, t);
      ShownMonotone(num, len, s, t);
      ShownMonotone(num, len, s, s + 1);
      ShownMonotone(num, len, s + 1, t);
    }
    forall t | 0 <= t < len - 1 && chars[t] != Blank && (t == 0 || chars[t - 1] == Blank)
      ensures chars[t] != Zero
    {
      if t > 0 {
        assert LeadingBlank(num, len, t - 1);
      }
      assert !Shown(num, len, t);
    }
  }

  /** Up to ten digits the uint32_t power does not wrap. */
  lemma TenPowerFits(k: nat)
    requires k <= 9
    ensures Power(10, k) < Two32 && Power(10, k) % Two32 == Power(10, k)
  {
    assert Power(10, 9) == 1_000_000_000;
    PowerMonotone(10, k, 9);
  }

  /** A drawn character stands for the true decimal digit at its position, a blank for 0. */
  lemma NumCharDigit(num: u32, len: nat, t: nat)
    requires t < len <= 10
    ensures CharDigit(NumChars(num, len)[t]) == DigitAt(num, 10, len - 1 - t)
  {
    var k := len - 1 - t;
    TenPowerFits(k);
    var d := DecimalDigit(num, len, t);
    assert d == num / Power(10, k) % 10 == DigitAt(num, 10, k);
    if LeadingBlank(num, len, t) {
      assert NumChars(num, len)[t] == Blank && d == 0;
    } else {
      assert NumChars(num, len)[t] == Zero + d;
    }
  }

  /**
   * With at most ten positions, reading the drawn characters back (a
   * blank as 0) gives num modulo 10^len, so num itself whenever it has at
   * most len digits.
   */
  lemma NumCharsReadBack(num: u32, len: nat)
    requires len <= 10
    ensures ValueOf(CharDigits(NumChars(num, len)), 10) == num % Power(10, len)
    ensures num < Power(10, len) ==> ValueOf(CharDigits(NumChars(num, len)), 10) == num
  {
    var chars := NumChars(num, len);
    assert CharDigits(chars) == DigitsOf(num, 10, len) by {
      forall t | 0 <= t < len
        ensures CharDigits(chars)[t] == DigitsOf(num, 10, len)[t]
      {
        NumCharDigit(num, len, t);
      }
    }
    DigitsValue(num, 10, len);
    if num < Power(10, len) {
      DivModUnique(num, Power(10, len), 0, num);
    }
  }

  /**
   * From eleven positions on, the uint32_t divisor 10^10 has wrapped to
   * 1410065408, so a leading position that should be blank shows a digit:
   * 4000000000 in eleven positions starts with '2'.
   */
  lemma NumCharsWrapBeyondTenDigits()
    ensures NumChars(4_000_000_000, 11)[0] == Zero + 2
  {
    assert Power(10, 10) == 10_000_000_000;
    assert DecimalDigit(4_000_000_000, 11, 0) == 2;
  }

  /** Digit k of OLED_ShowHexNum: `(num >> (4 * k)) & 0x0F`, that is num / 16^k mod 16. */
  function Nibble(num: u32, k: nat): (d: nat)
    ensures d < 16
  {
    DigitAt(num, 16, k)
  }

  /** `temp + '0'` below ten, `temp - 10 + 'A'` from ten on. */
  function HexDigitChar(d: nat): u8
    requires d < 16
  {
    if d < 10 then Zero + d else d - 10 + LetterA
  }

  /** Each hex character is '0'..'9' or 'A'..'F' and reads back as its digit. */
  lemma HexDigitCharRoundTrip(d: nat)
    requires d < 16
    ensures Zero <= HexDigitChar(d) <= Zero + 9 || LetterA <= HexDigitChar(d) <= LetterA + 5
    ensures CharDigit(HexDigitChar(d)) == d
  {
  }

  /** The len characters OLED_ShowHexNum draws; the shift stays below 32 bits for len <= 8. */
  function HexChars(num: u32, len: nat): (chars: seq<u8>)
    requires len <= 8
    ensures |chars| == len
  {
    seq<u8>(len, t requires 0 <= t < len => HexDigitChar(Nibble(num, len - 1 - t)))
  }

  /**
   * The hex characters read back as num modulo 16^len, most significant
   * first; eight of them give num exactly.
   */
  lemma HexCharsReadBack(num: u32, len: nat)
    requires len <= 8
    ensures ValueOf(CharDigits(HexChars(num, len)), 16) == num % Power(16, len)
    ensures len == 8 ==> ValueOf(CharDigits(HexChars(num, len)), 16) == num
  {
    var chars := HexChars(num, len);
    forall t | 0 <= t < len
      ensures CharDigits(chars)[t] == DigitsOf(num, 16, len)[t]
    {
      HexDigitCharRoundTrip(Nibble(num, len - 1 - t));
    }
    assert CharDigits(chars) == DigitsOf(num, 16, len);
    DigitsValue(num, 16, len);
    if len == 8 {
      assert Power(16, 8) == Two32;
      DivModUnique(num, Two32, 0, num);
    }
  }
}

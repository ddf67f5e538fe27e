// The drawing routines of spi_oled_driver.c and oled_driver.c as the loops
// they are, over a panel object that records every command and data write
// in order. The interface given at construction picks the SPI or the I2C
// cursor encoding; everything else is common to both files.
module OledDisplay {
  import opened MachineInts
  import opened OledText
  import opened OledDigits

  /** oled_pow: `while (n--) result *= m;` in uint32_t. */
  method OledPow(m: u8, n: u8) returns (result: u32)
    ensures result == Power(m, n) % Two32
  {
    result := 1;
    var remaining: nat := n;
    while remaining > 0
      invariant remaining <= n
      invariant result == Power(m, n - remaining) % Two32
    {
      var done := n - remaining;
      ModMulMod(Power(m, done), m, Two32);
      assert Power(m, done + 1) == Power(m, done) * m;
      result := (result * m) % Two32;
      remaining := remaining - 1;
    }
  }

  /**
   * The cursor update in OLED_ShowString's loop: x moves right by the
   * character width in uint8_t, wrapping to the next line past the last
   * column that fits and to the top-left corner past the last line.
   */
  method NextCursor(x: u8, y: u8, size: u8) returns (nx: u8, ny: u8)
    ensures Pos(nx, ny) == NextPos(Pos(x, y), size)
    ensures Fits(Pos(nx, ny), size)
  {
    var charWidth: u8 := if size == 8 then 8 else 6;
    var pageStep: u8 := if size == 8 then 2 else 1;
    nx, ny := (x + charWidth) % Two8, y;
    if nx > Width - charWidth {
      nx := 0;
      ny := (ny + pageStep) % Two8;
    }
    if ny > Pages - pageStep {
      ny := 0;
      nx := 0;
    }
    NextPosFits(Pos(x, y), size);
  }

  /**
   * One position of OLED_ShowNum: digit t of num through the wrapping
   * oled_pow, drawn as a blank while enshow is 0 and the digit is a leading
   * 0 (never at the last position); the first other digit sets enshow.
   */
  method DecimalChar(num: u32, len: u8, t: u8, enshow: u8) returns (ch: u8, enshowAfter: u8)
    requires t < len <= 32
    requires enshow == 0 <==> !Shown(num, len, t)
    ensures ch == NumChars(num, len)[t]
    ensures enshowAfter == 0 <==> !Shown(num, len, t + 1)
  {
    var divisor := OledPow(10, len - t - 1);
    TenPowerModNonZero(len - t - 1);
    var temp: u8 := (num / divisor) % 10;
    assert temp == DecimalDigit(num, len, t);
    enshowAfter := enshow;
    if enshow == 0 && t < len - 1 {
      if temp == 0 {
        ch := Blank;
      } else {
        enshowAfter := 1;
        ch := temp + Zero;
      }
    } else {
      ch := temp + Zero;
    }
  }

  /**
   * One position of OLED_ShowHexNum: a character in '0'..'9' or 'A'..'F'
   * that reads back as nibble len - 1 - t of num.
   */
  method HexChar(num: u32, len: u8, t: u8) returns (hexChar: u8)
    requires t < len <= 8
    ensures Zero <= hexChar <= Zero + 9 || LetterA <= hexChar <= LetterA + 5
    ensures CharDigit(hexChar) == Nibble(num, len - 1 - t)
    ensures hexChar == HexChars(num, len)[t]
  {
    var temp: u8 := (num / Power(16, len - t - 1)) % 16;
    assert temp == Nibble(num, len - 1 - t);
    assert HexChars(num, len)[t] == HexDigitChar(temp);
    HexDigitCharRoundTrip(temp);
    if temp < 10 {
      hexChar := temp + Zero;
    } else {
      hexChar := temp - 10 + LetterA;
    }
  }

  /** Drawing one piece of what was left leaves the rest of it to draw. */
  lemma WhatIsLeft(before: seq<BusWrite>, drawn: seq<BusWrite>, rest: seq<BusWrite>, left: seq<BusWrite>, after: seq<BusWrite>)
    requires left == drawn + rest && after == before + drawn
    ensures after + rest == before + left
  {
  }

  class OledPanel {
    const bus: Interface
    /** Every OLED_WriteCommand and OLED_WriteData so far, oldest first. */
    var trace: seq<BusWrite>

    constructor (bus: Interface)
      ensures this.bus == bus && trace == []
    {
      this.bus := bus;
      trace := [];
    }

    /** OLED_WriteCommand: one byte with D/C low (SPI) or control byte 0x00 (I2C). */
    method WriteCommand(command: u8)
      modifies this
      ensures trace == old(trace) + [Command(command)]
    {
      trace := trace + [Command(command)];
    }

    /** OLED_WriteData: one byte with D/C high (SPI) or control byte 0x40 (I2C). */
    method WriteData(data: Payload)
      modifies this
      ensures trace == old(trace) + [BusWrite(DataWrite, data)]
    {
      trace := trace + [BusWrite(DataWrite, data)];
    }

    /** OLED_SetCursor of the panel's interface. */
    method SetCursor(x: u8, y: u8)
      modifies this
      ensures trace == old(trace) + CursorWrites(bus, x, y)
    {
      match bus {
        case Spi =>
          WriteCommand((0xB0 + y) % Two8);
          WriteCommand(x % 16);
          WriteCommand(0x10 + x / 16);
        case I2c =>
          var shifted: u8 := (x + 2) % Two8;
          WriteCommand((0xB0 + y) % Two8);
          WriteCommand(0x10 + shifted / 16);
          WriteCommand(shifted % 16);
      }
    }

    /** OLED_Fill: for each of the 8 pages, the cursor to its column 0 and 128 copies of the byte. */
    method Fill(data: u8)
      modifies this
      ensures trace == old(trace) + FillWrites(bus, data, Pages)
    {
      for i := 0 to Pages
        invariant trace == old(trace) + FillWrites(bus, data, i)
      {
        ghost var before := trace;
        SetCursor(0, i);
        WritePageBytes(data);
        assert trace == before + PageWrites(bus, i, data);
      }
    }

    /** The inner loop of OLED_Fill: the byte written once for each of the 128 columns. */
    method WritePageBytes(data: u8)
      modifies this
      ensures trace == old(trace) + DataWrites(seq(Width, _ => Byte(data)))
    {
      for n := 0 to Width
        invariant trace == old(trace) + DataWrites(seq(n, _ => Byte(data)))
      {
        WriteData(Byte(data));
        assert seq(n + 1, _ => Byte(data)) == seq(n, _ => Byte(data)) + [Byte(data)];
      }
    }

    /** OLED_Clear: the loops of OLED_Fill with the byte 0x00. */
    method Clear()
      modifies this
      ensures trace == old(trace) + FillWrites(bus, 0, Pages)
    {
      Fill(0x00);
    }

    /** The glyph loops of OLED_ShowChar: one data write per font byte, in order. */
    method WriteGlyphBytes(ps: seq<Payload>)
      modifies this
      ensures trace == old(trace) + DataWrites(ps)
    {
      for i := 0 to |ps|
        invariant trace == old(trace) + DataWrites(ps[..i])
      {
        WriteData(ps[i]);
        assert DataWrites(ps[..i + 1]) == DataWrites(ps[..i]) + [BusWrite(DataWrite, ps[i])];
      }
      assert ps[..|ps|] == ps;
    }

    /** OLED_ShowChar. */
    method ShowChar(x: u8, y: u8, chr: u8, size: u8)
      modifies this
      ensures trace == old(trace) + CharWrites(bus, x, y, chr, size)
    {
      var c: u8 := (chr - 32) % Two8;
      var cx: u8, cy: u8 := x, y;
      if cx > Width - 1 {
        cx, cy := 0, (cy + 1) % Two8;
      }
      assert Pos(cx, cy) == CharOrigin(x, y) && c == GlyphIndex(chr);
      if size == 8 {
        ShowTallGlyph(cx, cy, c);
      } else {
        SetCursor(cx, cy);
        WriteGlyphBytes(SmallGlyph(c));
      }
    }

    /** The 8x16 branch of OLED_ShowChar: the top half on page y, the bottom half on the page below. */
    method ShowTallGlyph(x: u8, y: u8, c: u8)
      modifies this
      ensures trace == old(trace) + CursorWrites(bus, x, y) + DataWrites(TopHalf(c)) +
                       CursorWrites(bus, x, (y + 1) % Two8) + DataWrites(BottomHalf(c))
    {
      SetCursor(x, y);
      WriteGlyphBytes(TopHalf(c));
      SetCursor(x, (y + 1) % Two8);
      WriteGlyphBytes(BottomHalf(c));
    }

    /**
     * One pass of OLED_ShowString's loop: character j of the text at the
     * cursor, then the cursor update. What is left to draw from the new
     * cursor follows on from what was left before.
     */
    method ShowStringChar(x: u8, y: u8, ghost text: seq<u8>, j: nat, chr: u8, size: u8) returns (nx: u8, ny: u8)
      requires j < |text| && text[j] == chr
      modifies this
      ensures trace + StringWrites(bus, Pos(nx, ny), text[j + 1..], size) ==
              old(trace) + StringWrites(bus, Pos(x, y), text[j..], size)
    {
      StringWritesStep(bus, Pos(x, y), text, j, size);
      ghost var before := trace;
      ShowChar(x, y, chr, size);
      nx, ny := NextCursor(x, y, size);
      WhatIsLeft(before, CharWrites(bus, x, y, chr, size), StringWrites(bus, Pos(nx, ny), text[j + 1..], size),
                 StringWrites(bus, Pos(x, y), text[j..], size), trace);
    }

    /**
     * OLED_ShowString: draws the characters up to the terminator, moving the
     * cursor after each. The uint8_t index j must reach the terminator
     * before it wraps, so the terminator sits in the first 256 bytes.
     */
    method ShowString(x: u8, y: u8, str: seq<u8>, size: u8)
      requires 0 in str && FirstNul(str) < Two8
      modifies this
      ensures trace == old(trace) + StringWrites(bus, Pos(x, y), CText(str), size)
    {
      ghost var text := CText(str);
      var cx: u8, cy: u8 := x, y;
      var j: u8 := 0;
      while str[j] != 0
        invariant j <= FirstNul(str) == |text|
        invariant old(trace) + StringWrites(bus, Pos(x, y), text, size) ==
                  trace + StringWrites(bus, Pos(cx, cy), text[j..], size)
        decreases FirstNul(str) - j
      {
        assert j != FirstNul(str);
        cx, cy := ShowStringChar(cx, cy, text, j, str[j], size);
        j := j + 1;
      }
      assert text[j..] == [];
    }

    /**
     * One pass of the number loops: character t of the row, drawn by
     * `OLED_ShowChar(x + t * char_width, y, ...)`. What is left to draw
     * from t + 1 follows on from what was left from t.
     */
    method ShowRowChar(x: u8, y: u8, ghost chars: seq<u8>, t: u8, chr: u8, size: u8)
      requires t < |chars| && chars[t] == chr
      modifies this
      ensures trace + RowWrites(bus, x, y, chars, t + 1, size) ==
              old(trace) + RowWrites(bus, x, y, chars, t, size)
    {
      ghost var before := trace;
      ShowCharAt(x, y, t, chr, size);
      WhatIsLeft(before, CharWrites(bus, RowX(x, t, size), y, chr, size), RowWrites(bus, x, y, chars, t + 1, size),
                 RowWrites(bus, x, y, chars, t, size), trace);
    }

    /** `OLED_ShowChar(x + t * char_width, y, chr, size)`, where the column wraps in uint8_t. */
    method ShowCharAt(x: u8, y: u8, t: u8, chr: u8, size: u8)
      modifies this
      ensures trace == old(trace) + CharWrites(bus, RowX(x, t, size), y, chr, size)
    {
      var charWidth: u8 := if size == 8 then 8 else 6;
      assert charWidth == CharWidth(size);
      ShowChar((x + t * charWidth) % Two8, y, chr, size);
    }

    /**
     * OLED_ShowNum: len characters at x + t * width. Position t shows
     * digit t of num; leading zeros become blanks until the first non-zero
     * digit sets enshow, and the last position is always a digit.
     */
    method ShowNum(x: u8, y: u8, num: u32, len: u8, size: u8)
      requires len <= 32
      modifies this
      ensures trace == old(trace) + RowWrites(bus, x, y, NumChars(num, len), 0, size)
    {
      ghost var chars := NumChars(num, len);
      var enshow: u8 := 0;
      for t := 0 to len
        invariant old(trace) + RowWrites(bus, x, y, chars, 0, size) == trace + RowWrites(bus, x, y, chars, t, size)
        invariant enshow == 0 <==> !Shown(num, len, t)
      {
        var ch;
        ch, enshow := DecimalChar(num, len, t, enshow);
        ShowRowChar(x, y, chars, t, ch, size);
      }
      assert trace + [] == trace;
    }

    /** OLED_ShowHexNum: len characters at x + t * width, nibble by nibble from the most significant. */
    method ShowHexNum(x: u8, y: u8, num: u32, len: u8, size: u8)
      requires len <= 8
      modifies this
      ensures trace == old(trace) + RowWrites(bus, x, y, HexChars(num, len), 0, size)
    {
      ghost var chars := HexChars(num, len);
      for t := 0 to len
        invariant old(trace) + RowWrites(bus, x, y, chars, 0, size) == trace + RowWrites(bus, x, y, chars, t, size)
      {
        var hexChar := HexChar(num, len, t);
        ShowRowChar(x, y, chars, t, hexChar, size);
      }
      assert trace + [] == trace;
    }
  }
}

// What the OLED drivers put on the bus. spi_oled_driver.c and oled_driver.c
// share every drawing routine line for line; they differ only in how a
// command or data byte is framed (D/C pin versus I2C control byte) and in
// the column commands of OLED_SetCursor. Each routine is specified here as
// the sequence of command and data writes it issues, given the interface.
module OledText {
  import opened MachineInts

  /** OLED_WIDTH, and OLED_HEIGHT / 8 pages of eight rows. */
  const Width: nat := 128
  const Pages: nat := 8
  /** OLED_I2C_ADDRESS and the two control bytes of oled_driver.h. */
  const I2cAddress: u8 := 0x78
  const ControlCommand: u8 := 0x00
  const ControlData: u8 := 0x40

  /** The two builds of the driver: SPI (spi_oled_driver.c) and I2C (oled_driver.c). */
  datatype Interface = Spi | I2c

  /**
   * A byte sent to the panel. Font.h is not part of this model, so a glyph
   * byte is named by where it sits in its table: F6x8[index][column] or
   * F8X16[offset].
   */
  datatype Payload = Byte(b: u8) | Glyph6x8(index: u8, column: nat) | Glyph8x16(offset: nat)

  /** OLED_WriteCommand or OLED_WriteData: D/C low or high on SPI, control byte 0x00 or 0x40 on I2C. */
  datatype WriteKind = CommandWrite | DataWrite
  datatype BusWrite = BusWrite(kind: WriteKind, p: Payload)

  function Command(b: u8): BusWrite
  {
    BusWrite(CommandWrite, Byte(b))
  }

  function DataWrites(ps: seq<Payload>): (ws: seq<BusWrite>)
    ensures |ws| == |ps|
  {
    seq(|ps|, i requires 0 <= i < |ps| => BusWrite(DataWrite, ps[i]))
  }

  /**
   * The bytes of one OLED_WriteBytes transfer of length 1 on I2C: the
   * address, the control byte that tags command or data, then the byte.
   */
  function I2cFrame(w: BusWrite): seq<Payload>
  {
    [Byte(I2cAddress), Byte(if w.kind == CommandWrite then ControlCommand else ControlData), w.p]
  }

  /** How the panel reads a transfer: the control byte says what the payload is. */
  function ParseI2cFrame(frame: seq<Payload>): Option<BusWrite>
  {
    if |frame| == 3 && frame[0] == Byte(I2cAddress) && frame[1] in {Byte(ControlCommand), Byte(ControlData)}
    then Some(BusWrite(if frame[1] == Byte(ControlCommand) then CommandWrite else DataWrite, frame[2]))
    else None
  }

  /** Every write is framed so that the panel recovers it, commands tagged 0x00 and data 0x40. */
  lemma I2cFrameRoundTrip(w: BusWrite)
    ensures ParseI2cFrame(I2cFrame(w)) == Some(w)
    ensures I2cFrame(w)[1] == Byte(ControlCommand) <==> w.kind == CommandWrite
    ensures I2cFrame(w)[1] == Byte(ControlData) <==> w.kind == DataWrite
  {
  }

  /**
   * The three commands of OLED_SetCursor. Both write the page command
   * 0xB0 + y (truncated to a byte). SPI then sends the low column nibble
   * (x & 0x0F) and the high one (0x10 | x >> 4); I2C first moves x two
   * columns right in uint8_t and sends the high nibble before the low.
   */
  function CursorCommands(bus: Interface, x: u8, y: u8): (cmds: seq<u8>)
    ensures |cmds| == 3
  {
    match bus
    case Spi => [(0xB0 + y) % Two8, x % 16, 0x10 + x / 16]
    case I2c =>
      var shifted := (x + 2) % Two8;
      [(0xB0 + y) % Two8, 0x10 + shifted / 16, shifted % 16]
  }

  /** The controller column that x addresses: the I2C panel is offset by two. */
  function Column(bus: Interface, x: u8): u8
  {
    match bus
    case Spi => x
    case I2c => (x + 2) % Two8
  }

  function CursorWrites(bus: Interface, x: u8, y: u8): (ws: seq<BusWrite>)
    ensures |ws| == 3
  {
    var cmds := CursorCommands(bus, x, y);
    [Command(cmds[0]), Command(cmds[1]), Command(cmds[2])]
  }

  /**
   * The cursor commands are SSD130x page-addressing commands: a page start
   * in 0xB0..0xB7 for pages 0..7, one lower-column command in 0x00..0x0F
   * and one higher-column command in 0x10..0x1F, whose nibbles put
   * together are the addressed column.
   */
  lemma CursorCommandsAddress(bus: Interface, x: u8, y: u8)
    ensures var cmds := CursorCommands(bus, x, y);
      (y < Pages ==> 0xB0 <= cmds[0] <= 0xB7 && cmds[0] - 0xB0 == y) &&
      var (hi, lo) := if bus == Spi then (cmds[2], cmds[1]) else (cmds[1], cmds[2]);
      0x10 <= hi <= 0x1F && lo <= 0x0F && (hi - 0x10) * 16 + lo == Column(bus, x)
  {
  }

  /** char_width and the pages one character line takes, for font size 8 (8x16) or any other (6x8). */
  function CharWidth(size: u8): nat
  {
    if size == 8 then 8 else 6
  }

  function PageStep(size: u8): nat
  {
    if size == 8 then 2 else 1
  }

  /** `c = chr - ' '` in uint8_t. */
  function GlyphIndex(chr: u8): u8
  {
    (chr - 32) % Two8
  }

  function TopHalf(c: u8): seq<Payload>
  {
    seq(8, i requires 0 <= i < 8 => Glyph8x16(c * 16 + i))
  }

  function BottomHalf(c: u8): seq<Payload>
  {
    seq(8, i requires 0 <= i < 8 => Glyph8x16(c * 16 + i + 8))
  }

  function SmallGlyph(c: u8): seq<Payload>
  {
    seq(6, i requires 0 <= i < 6 => Glyph6x8(c, i))
  }

  datatype Pos = Pos(x: u8, y: u8)

  /** OLED_ShowChar's own wrap: a column past the last moves to column 0 of the next page. */
  function CharOrigin(x: u8, y: u8): Pos
  {
    if x > Width - 1 then Pos(0, (y + 1) % Two8) else Pos(x, y)
  }

  /**
   * OLED_ShowChar: for size 8 the 8 top bytes of the glyph on the origin's
   * page and the 8 bottom bytes on the page below, otherwise the 6 bytes of
   * the small glyph on the origin's page.
   */
  function CharWrites(bus: Interface, x: u8, y: u8, chr: u8, size: u8): seq<BusWrite>
  {
    var o := CharOrigin(x, y);
    var c := GlyphIndex(chr);
    if size == 8 then
      CursorWrites(bus, o.x, o.y) + DataWrites(TopHalf(c)) +
      CursorWrites(bus, o.x, (o.y + 1) % Two8) + DataWrites(BottomHalf(c))
    else
      CursorWrites(bus, o.x, o.y) + DataWrites(SmallGlyph(c))
  }

  /**
   * OLED_ShowString's cursor update after a character: x advances by the
   * width in uint8_t; past Width - width it returns to 0 and y moves down
   * one line (in uint8_t); a y past the last line that fits returns both
   * to the top-left corner.
   */
  function NextPos(p: Pos, size: u8): Pos
  {
    var w, step := CharWidth(size), PageStep(size);
    var x1 := (p.x + w) % Two8;
    var wrapped := if x1 > Width - w then Pos(0, (p.y + step) % Two8) else Pos(x1, p.y);
    if wrapped.y > Pages - step then Pos(0, 0) else wrapped
  }

  /** A character at p lies wholly on the panel. */
  predicate Fits(p: Pos, size: u8)
  {
    p.x + CharWidth(size) <= Width && p.y + PageStep(size) <= Pages
  }

  /** Whatever the starting position, the next one fits on the panel. */
  lemma NextPosFits(p: Pos, size: u8)
    ensures Fits(NextPos(p, size), size)
  {
  }

  /**
   * From a position that fits, the next character goes right beside it if
   * it still fits on the line, else to column 0 of the next line if that
   * line fits, else to the top-left corner.
   */
  lemma NextPosWraps(p: Pos, size: u8)
    requires Fits(p, size)
    ensures NextPos(p, size) ==
      if p.x + 2 * CharWidth(size) <= Width then Pos(p.x + CharWidth(size), p.y)
      else if p.y + 2 * PageStep(size) <= Pages then Pos(0, p.y + PageStep(size))
      else Pos(0, 0)
  {
  }

  /** The positions OLED_ShowString draws n characters at, from p. */
  function Placements(p: Pos, n: nat, size: u8): (ps: seq<Pos>)
    ensures |ps| == n
    ensures n > 0 ==> ps[0] == p
    decreases n
  {
    if n == 0 then [] else [p] + Placements(NextPos(p, size), n - 1, size)
  }

  /** Every character after the first lies wholly on the panel. */
  lemma {:induction false} PlacementsFit(p: Pos, n: nat, size: u8)
    ensures forall i :: 1 <= i < n ==> Fits(Placements(p, n, size)[i], size)
    decreases n
  {
    if n > 1 {
      NextPosFits(p, size);
      PlacementsFit(NextPos(p, size), n - 1, size);
      forall i | 1 <= i < n
        ensures Fits(Placements(p, n, size)[i], size)
      {
        if i > 1 {
          assert Placements(p, n, size)[i] == Placements(NextPos(p, size), n - 1, size)[i - 1];
        }
      }
    }
  }

  /** OLED_ShowString over the characters before the terminator. */
  function StringWrites(bus: Interface, p: Pos, text: seq<u8>, size: u8): (ws: seq<BusWrite>)
    decreases |text|
  {
    if text == [] then []
    else CharWrites(bus, p.x, p.y, text[0], size) + StringWrites(bus, NextPos(p, size), text[1..], size)
  }

  /** The writes of several characters, one after the other. */
  function Flatten(blocks: seq<seq<BusWrite>>): seq<BusWrite>
  {
    if blocks == [] then [] else blocks[0] + Flatten(blocks[1..])
  }

  /** The writes of each character of a string, drawn at its placement. */
  function StringBlocks(bus: Interface, p: Pos, text: seq<u8>, size: u8): (blocks: seq<seq<BusWrite>>)
    ensures |blocks| == |text|
  {
    var ps := Placements(p, |text|, size);
    seq(|text|, i requires 0 <= i < |text| => CharWrites(bus, ps[i].x, ps[i].y, text[i], size))
  }

  /** OLED_ShowString draws character i of the text, in order, at placement i. */
  lemma {:induction false} StringWritesAreCharacters(bus: Interface, p: Pos, text: seq<u8>, size: u8)
    ensures StringWrites(bus, p, text, size) == Flatten(StringBlocks(bus, p, text, size))
    decreases |text|
  {
    if text != [] {
      var q := NextPos(p, size);
      StringWritesAreCharacters(bus, q, text[1..], size);
      var blocks := StringBlocks(bus, p, text, size);
      assert blocks[1..] == StringBlocks(bus, q, text[1..], size);
    }
  }

  /** One more character of OLED_ShowString: the one at p, then the rest from the next position. */
  lemma StringWritesStep(bus: Interface, p: Pos, text: seq<u8>, j: nat, size: u8)
    requires j < |text|
    ensures StringWrites(bus, p, text[j..], size) ==
            CharWrites(bus, p.x, p.y, text[j], size) + StringWrites(bus, NextPos(p, size), text[j + 1..], size)
  {
    assert text[j..][0] == text[j] && text[j..][1..] == text[j + 1..];
  }

  /** The index of a C string's terminator. */
  function FirstNul(str: seq<u8>): (j: nat)
    requires 0 in str
    ensures j < |str| && str[j] == 0
    ensures forall k :: 0 <= k < j ==> str[k] != 0
  {
    if str[0] == 0 then 0 else 1 + FirstNul(str[1..])
  }

  /** The characters OLED_ShowString draws: those before the terminator. */
  function CText(str: seq<u8>): (text: seq<u8>)
    requires 0 in str
    ensures 0 !in text
  {
    str[..FirstNul(str)]
  }

  /**
   * OLED_ShowNum and OLED_ShowHexNum from position t on: character t at
   * x + t * width (in uint8_t), then the rest, all on page y.
   */
  function RowWrites(bus: Interface, x: u8, y: u8, chars: seq<u8>, t: nat, size: u8): seq<BusWrite>
    decreases |chars| - t
  {
    if t >= |chars| then []
    else CharWrites(bus, RowX(x, t, size), y, chars[t], size) + RowWrites(bus, x, y, chars, t + 1, size)
  }

  /** `x + t * char_width` passed as a uint8_t. */
  function RowX(x: u8, t: nat, size: u8): u8
  {
    (x + t * CharWidth(size)) % Two8
  }

  /** The writes of each character of a row, drawn at x + t * width. */
  function RowBlocks(bus: Interface, x: u8, y: u8, chars: seq<u8>, size: u8): (blocks: seq<seq<BusWrite>>)
    ensures |blocks| == |chars|
  {
    seq(|chars|, t requires 0 <= t < |chars| => CharWrites(bus, RowX(x, t, size), y, chars[t], size))
  }

  /** OLED_ShowNum and OLED_ShowHexNum draw character t, in order, at x + t * width on page y. */
  lemma {:induction false} RowWritesAreCharacters(bus: Interface, x: u8, y: u8, chars: seq<u8>, t: nat, size: u8)
    requires t <= |chars|
    ensures RowWrites(bus, x, y, chars, t, size) == Flatten(RowBlocks(bus, x, y, chars, size)[t..])
    decreases |chars| - t
  {
    if t < |chars| {
      RowWritesAreCharacters(bus, x, y, chars, t + 1, size);
      var blocks := RowBlocks(bus, x, y, chars, size);
      assert blocks[t..][0] == blocks[t] && blocks[t..][1..] == blocks[t + 1..];
    }
  }

  /** One page of OLED_Clear or OLED_Fill: cursor at (0, page), then 128 copies of the byte. */
  function PageWrites(bus: Interface, page: u8, b: u8): (ws: seq<BusWrite>)
    ensures |ws| == 3 + Width
  {
    CursorWrites(bus, 0, page) + DataWrites(seq(Width, _ => Byte(b)))
  }

  /** The first n pages of OLED_Fill(b); OLED_Clear is OLED_Fill(0x00). */
  function FillWrites(bus: Interface, b: u8, n: nat): (ws: seq<BusWrite>)
    requires n <= Pages
  {
    if n == 0 then [] else FillWrites(bus, b, n - 1) + PageWrites(bus, n - 1, b)
  }
}

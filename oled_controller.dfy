// The receiving side of the OLED bus: an SSD130x in page addressing mode,
// reduced to the three commands the drivers use to move the write position
// (page start 0xB0..0xB7, lower column nibble 0x00..0x0F, higher column
// nibble 0x10..0x1F) and the advance of the column after each data byte.
// It gives the drivers' byte streams a meaning: which cell each byte lands in.
// The column is never wrapped at the panel's last column, and the addressing
// mode the drivers' init sequences select is not modelled.
module OledController {
  import opened MachineInts
  import opened OledText

  datatype Cursor = Cursor(page: nat, column: nat)

  /** A data byte stored in display RAM at a page and column. */
  datatype Cell = Cell(page: nat, column: nat, p: Payload)

  /** The write position after one bus write; other commands leave it alone. */
  function Apply(w: BusWrite, c: Cursor): Cursor
  {
    if w.kind == DataWrite then Cursor(c.page, c.column + 1)
    else match w.p
      case Byte(b) =>
        if 0xB0 <= b <= 0xB7 then Cursor(b - 0xB0, c.column)
        else if b <= 0x0F then Cursor(c.page, c.column / 16 * 16 + b)
        else if 0x10 <= b <= 0x1F then Cursor(c.page, (b - 0x10) * 16 + c.column % 16)
        else c
      case _ => c
  }

  /** The cells a stream of writes fills, in order, from write position c. */
  function Painted(ws: seq<BusWrite>, c: Cursor): seq<Cell>
  {
    if ws == [] then []
    else
      (if ws[0].kind == DataWrite then [Cell(c.page, c.column, ws[0].p)] else []) +
      Painted(ws[1..], Apply(ws[0], c))
  }

  /** The write position after a stream of writes. */
  function After(ws: seq<BusWrite>, c: Cursor): Cursor
  {
    if ws == [] then c else After(ws[1..], Apply(ws[0], c))
  }

  /** Bytes in a row of consecutive columns of one page. */
  function Run(page: nat, column: nat, ps: seq<Payload>): (cells: seq<Cell>)
    ensures |cells| == |ps|
  {
    seq(|ps|, i requires 0 <= i < |ps| => Cell(page, column + i, ps[i]))
  }

  lemma {:induction false} PaintedAppend(a: seq<BusWrite>, b: seq<BusWrite>, c: Cursor)
    ensures Painted(a + b, c) == Painted(a, c) + Painted(b, After(a, c))
    ensures After(a + b, c) == After(b, After(a, c))
  {
    if a != [] {
      assert (a + b)[1..] == a[1..] + b;
      PaintedAppend(a[1..], b, Apply(a[0], c));
    } else {
      assert a + b == b;
    }
  }

  /** Data bytes fill consecutive columns of the current page. */
  lemma {:induction false} PaintedData(ps: seq<Payload>, c: Cursor)
    ensures Painted(DataWrites(ps), c) == Run(c.page, c.column, ps)
    ensures After(DataWrites(ps), c) == Cursor(c.page, c.column + |ps|)
  {
    if ps != [] {
      var ws := DataWrites(ps);
      var next := Cursor(c.page, c.column + 1);
      assert ws[1..] == DataWrites(ps[1..]);
      PaintedData(ps[1..], next);
      assert Run(c.page, c.column, ps) == [Cell(c.page, c.column, ps[0])] + Run(next.page, next.column, ps[1..]);
    }
  }

  lemma NibbleJoin(k: nat, r: nat)
    requires r < 16
    ensures (k * 16 + r) % 16 == r && (k * 16 + r) / 16 == k
  {
    DivModUnique(k * 16 + r, 16, k, r);
  }

  /**
   * OLED_SetCursor(x, y) for a page on the panel paints nothing and leaves
   * the write position at page y, controller column Column(bus, x),
   * wherever it was before.
   */
  lemma CursorSets(bus: Interface, x: u8, y: u8, c: Cursor)
    requires y < Pages
    ensures Painted(CursorWrites(bus, x, y), c) == []
    ensures After(CursorWrites(bus, x, y), c) == Cursor(y, Column(bus, x))
  {
    var cmds := CursorCommands(bus, x, y);
    ThreeCommands(cmds[0], cmds[1], cmds[2], c);
    var c1 := Apply(Command(cmds[0]), c);
    assert c1 == Cursor(y, c.column);
    var col := Column(bus, x);
    var c2 := Apply(Command(cmds[1]), c1);
    if bus == Spi {
      assert c2 == Cursor(y, c.column / 16 * 16 + x % 16);
      NibbleJoin(c.column / 16, x % 16);
      DivModUnique(x, 16, x / 16, x % 16);
    } else {
      assert c2 == Cursor(y, (col / 16) * 16 + c.column % 16);
      NibbleJoin(col / 16, c.column % 16);
      DivModUnique(col, 16, col / 16, col % 16);
    }
    assert Apply(Command(cmds[2]), c2) == Cursor(y, col);
  }

  /** Three commands paint nothing and move the write position one command at a time. */
  lemma ThreeCommands(a: u8, b: u8, d: u8, c: Cursor)
    ensures var ws := [Command(a), Command(b), Command(d)];
      Painted(ws, c) == [] && After(ws, c) == Apply(Command(d), Apply(Command(b), Apply(Command(a), c)))
  {
    var ws := [Command(a), Command(b), Command(d)];
    var c1 := Apply(Command(a), c);
    var c2 := Apply(Command(b), c1);
    var c3 := Apply(Command(d), c2);
    assert Painted([], c3) == [] && After([], c3) == c3;
    assert [Command(d)][1..] == [];
    assert Painted([Command(d)], c2) == [] && After([Command(d)], c2) == c3;
    assert [Command(b), Command(d)][1..] == [Command(d)];
    assert Painted([Command(b), Command(d)], c1) == [] && After([Command(b), Command(d)], c1) == c3;
    assert ws[1..] == [Command(b), Command(d)];
  }

  /** Data written after OLED_SetCursor(x, y) lands on page y from column Column(bus, x) on. */
  lemma CursorThenData(bus: Interface, x: u8, y: u8, ps: seq<Payload>, c: Cursor)
    requires y < Pages
    ensures Painted(CursorWrites(bus, x, y) + DataWrites(ps), c) == Run(y, Column(bus, x), ps)
    ensures After(CursorWrites(bus, x, y) + DataWrites(ps), c) == Cursor(y, Column(bus, x) + |ps|)
  {
    PaintedAppend(CursorWrites(bus, x, y), DataWrites(ps), c);
    CursorSets(bus, x, y, c);
    PaintedData(ps, Cursor(y, Column(bus, x)));
  }

  /**
   * OLED_ShowChar on the panel: an 8x16 glyph puts its top 8 bytes on the
   * origin's page and its bottom 8 bytes in the same columns of the page
   * below; a 6x8 glyph puts its 6 bytes on the origin's page.
   */
  lemma ShowCharCells(bus: Interface, x: u8, y: u8, chr: u8, size: u8, c: Cursor)
    requires CharOrigin(x, y).y + PageStep(size) <= Pages
    ensures var o, g := CharOrigin(x, y), GlyphIndex(chr);
      Painted(CharWrites(bus, x, y, chr, size), c) ==
        if size == 8 then Run(o.y, Column(bus, o.x), TopHalf(g)) + Run(o.y + 1, Column(bus, o.x), BottomHalf(g))
        else Run(o.y, Column(bus, o.x), SmallGlyph(g))
  {
    var o, g := CharOrigin(x, y), GlyphIndex(chr);
    if size == 8 {
      var top := CursorWrites(bus, o.x, o.y) + DataWrites(TopHalf(g));
      var bottom := CursorWrites(bus, o.x, o.y + 1) + DataWrites(BottomHalf(g));
      assert CharWrites(bus, x, y, chr, size) == top + bottom;
      PaintedAppend(top, bottom, c);
      CursorThenData(bus, o.x, o.y, TopHalf(g), c);
      CursorThenData(bus, o.x, o.y + 1, BottomHalf(g), After(top, c));
    } else {
      CursorThenData(bus, o.x, o.y, SmallGlyph(g), c);
    }
  }

  /**
   * OLED_Fill(b) (and OLED_Clear, with b = 0) sets every one of the
   * 8 x 128 cells of the panel to b, page by page and column by column,
   * from the interface's first column.
   */
  lemma {:induction false} FillCells(bus: Interface, b: u8, n: nat, c: Cursor)
    requires n <= Pages
    ensures var cells := Painted(FillWrites(bus, b, n), c);
      |cells| == n * Width &&
      forall i :: 0 <= i < n * Width ==> cells[i] == Cell(i / Width, Column(bus, 0) + i % Width, Byte(b))
  {
    if n > 0 {
      var front := FillWrites(bus, b, n - 1);
      var page := PageWrites(bus, n - 1, b);
      FillCells(bus, b, n - 1, c);
      PaintedAppend(front, page, c);
      CursorThenData(bus, 0, n - 1, seq(Width, _ => Byte(b)), After(front, c));
      var cells := Painted(FillWrites(bus, b, n), c);
      var k := (n - 1) * Width;
      forall i | k <= i < n * Width
        ensures cells[i] == Cell(i / Width, Column(bus, 0) + i % Width, Byte(b))
      {
        DivModUnique(i, Width, n - 1, i - k);
      }
    }
  }
}

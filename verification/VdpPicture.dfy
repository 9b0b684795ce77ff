/**
 * What a screenshot shows, told from the other side: a logical screen (characters and their
 * shapes, colour numbers, chroma values) is stored in memory as the V99x8 data book lays it out,
 * and the screenshot gives this screen back, dot for dot.
 */
module VdpPicture {
  import opened Octets
  import opened Bytes
  import opened VdpTables
  import opened VdpRender
  import opened VdpSprites
  import opened SparseCapture

  /** The colour numbers of set and clear dots, or of a left and a right half. */
  datatype Pen = Pen(ink: nat, paper: nat)

  /** What a program means to show.  Cells have a row and a column, bitmaps a line and a pixel. */
  datatype Screen =
    | Text(columns: nat, code: (nat, nat) -> nat, blinks: (nat, nat) -> bool, glyph: (nat, nat, nat) -> bool,
           pen: Pen, blinkPen: Pen)
    | Tiles(code: (nat, nat) -> nat, glyph: (nat, nat, nat) -> bool, group: nat -> Pen)
    | Graphic(code: (nat, nat) -> nat, shape: (nat, nat, nat, nat) -> bool, shade: (nat, nat, nat) -> Pen)
    | Blocks(code: (nat, nat) -> nat, pair: (nat, nat) -> Pen)
    | Indexed(colour: (nat, nat) -> nat)
    | Direct(level: (nat, nat) -> (nat, nat, nat))
    | Tinted(lum: (nat, nat) -> nat, j: (nat, nat) -> int, k: (nat, nat) -> int, attribute: (nat, nat) -> Option<nat>)

  // ------------------------------------------------------------ how it is stored

  /** Eight dots as an octet, the leftmost in the highest bit. */
  function Dots8(d: nat -> bool): (octet: nat)
    ensures octet < 256
  {
    (if d(0) then 128 else 0) + (if d(1) then 64 else 0) + (if d(2) then 32 else 0) + (if d(3) then 16 else 0)
    + (if d(4) then 8 else 0) + (if d(5) then 4 else 0) + (if d(6) then 2 else 0) + (if d(7) then 1 else 0)
  }

  lemma DotsAreBits(d: nat -> bool, i: nat)
    requires i < 8
    ensures Bit(Dots8(d), i) == d(i)
  {
    hide Dots8, Bit;
    Summed(d);
    BitsOf(Dots8(d), One(d(0)), One(d(1)), One(d(2)), One(d(3)), One(d(4)), One(d(5)), One(d(6)), One(d(7)));
    assert i == 0 || i == 1 || i == 2 || i == 3 || i == 4 || i == 5 || i == 6 || i == 7;
  }

  lemma Summed(d: nat -> bool)
    ensures Dots8(d) == 128 * One(d(0)) + 64 * One(d(1)) + 32 * One(d(2)) + 16 * One(d(3))
                        + 8 * One(d(4)) + 4 * One(d(5)) + 2 * One(d(6)) + One(d(7))
  {
  }

  function One(b: bool): nat {
    if b then 1 else 0
  }

  lemma BitsOf(octet: nat, a: nat, b: nat, c: nat, d: nat, e: nat, f: nat, g: nat, h: nat)
    requires a < 2 && b < 2 && c < 2 && d < 2 && e < 2 && f < 2 && g < 2 && h < 2
    requires octet == 128 * a + 64 * b + 32 * c + 16 * d + 8 * e + 4 * f + 2 * g + h
    ensures (Bit(octet, 0) <==> a == 1) && (Bit(octet, 1) <==> b == 1)
    ensures (Bit(octet, 2) <==> c == 1) && (Bit(octet, 3) <==> d == 1)
    ensures (Bit(octet, 4) <==> e == 1) && (Bit(octet, 5) <==> f == 1)
    ensures (Bit(octet, 6) <==> g == 1) && (Bit(octet, 7) <==> h == 1)
  {
    assert octet / 2 == 64 * a + 32 * b + 16 * c + 8 * d + 4 * e + 2 * f + g;
    assert octet / 4 == 32 * a + 16 * b + 8 * c + 4 * d + 2 * e + f;
    assert octet / 8 == 16 * a + 8 * b + 4 * c + 2 * d + e;
    assert octet / 16 == 8 * a + 4 * b + 2 * c + d;
    assert octet / 32 == 4 * a + 2 * b + c;
    assert octet / 64 == 2 * a + b;
    assert octet / 128 == a;
  }

  /** Two colour numbers in one octet, the first in the high half. */
  predicate Holds(octet: nat, pen: Pen) {
    pen.ink < 16 && pen.paper < 16 && octet == 16 * pen.ink + pen.paper
  }

  predicate CellsStored(v: Vram, s: Shot, code: (nat, nat) -> nat) {
    forall row: nat, column: nat | row < 32 && column < 32 ::
      code(row, column) < 256 && v[NamePlace(s.regs, row, column)] == code(row, column)
  }

  predicate GlyphsStored(v: Vram, s: Shot, glyph: (nat, nat, nat) -> bool) {
    forall code: nat, line: nat | code < 256 && line < 8 :: GlyphStored(v, s, glyph, code, line)
  }

  predicate GlyphStored(v: Vram, s: Shot, glyph: (nat, nat, nat) -> bool, code: nat, line: nat)
    requires code < 256 && line < 8
  {
    v[PatternPlace(s.regs, code * 8 + line)] == Dots8((dot: nat) => glyph(code, line, dot))
  }

  predicate TextStored(v: Vram, s: Shot, t: Screen)
    requires t.Text?
  {
    && s.mode == 0 && TextColumnsAre(s, t.columns)
    && Holds(Reg(s.regs, 7), t.pen) && Holds(Reg(s.regs, 12), t.blinkPen) && GlyphsStored(v, s, t.glyph)
    && (forall row: nat, column: nat | row < 32 && row * 8 < s.height && column < t.columns ::
          t.code(row, column) < 256 && v[TextNamePlace(s.regs, t.columns, row, column)] == t.code(row, column))
    && (t.columns == 80 ==>
          forall row: nat, eight: nat | row < 32 && eight < 10 :: BlinksStored(v, s, t.blinks, row, eight))
  }

  predicate BlinksStored(v: Vram, s: Shot, blinks: (nat, nat) -> bool, row: nat, eight: nat) {
    v[BlinkPlace(s.regs, row * 10 + eight)] == Dots8((k: nat) => blinks(row, eight * 8 + k))
  }

  /** The caller's choice, or what bit 2 of R#0 says. */
  predicate TextColumnsAre(s: Shot, columns: nat) {
    && (columns == 40 || columns == 80)
    && match s.textWidth
       case Some(width) => width == columns || (width == 0 && columns == if s.regs[0] / 4 % 2 == 1 then 80 else 40)
       case None => columns == if s.regs[0] / 4 % 2 == 1 then 80 else 40
  }

  predicate TilesStored(v: Vram, s: Shot, t: Screen)
    requires t.Tiles?
  {
    && s.mode == 1 && CellsStored(v, s, t.code) && GlyphsStored(v, s, t.glyph)
    && forall g: nat | g < 32 :: Holds(v[ColourPlace(s.regs, g)], t.group(g))
  }

  /** Each third of the screen has its own shapes, and each line of a shape its own colours. */
  predicate GraphicStored(v: Vram, s: Shot, t: Screen)
    requires t.Graphic?
  {
    && (s.mode == 2 || s.mode == 4) && CellsStored(v, s, t.code)
    && forall third: nat, code: nat, line: nat | third < 4 && code < 256 && line < 8 && Displayed(s, third) ::
         ShapeStored(v, s, t, third, code, line)
  }

  /** Some line of this third of the memory is on the screen. */
  predicate Displayed(s: Shot, third: nat) {
    exists y: nat :: y < s.height && LineAt(s, y) / 64 == third
  }

  predicate ShapeStored(v: Vram, s: Shot, t: Screen, third: nat, code: nat, line: nat)
    requires t.Graphic?
  {
    var i := third * 2048 + code * 8 + line;
    && v[WidePatternPlace(s.regs, i)] == Dots8((dot: nat) => t.shape(third, code, line, dot))
    && Holds(v[WideColourPlace(s.regs, i)], t.shade(third, code, line))
  }

  /** Blocks of four by four dots, two to an octet. */
  predicate BlocksStored(v: Vram, s: Shot, t: Screen)
    requires t.Blocks?
  {
    && s.mode == 3 && CellsStored(v, s, t.code)
    && forall code: nat, part: nat | code < 256 && part < 8 ::
         Holds(v[PatternPlace(s.regs, code * 8 + part)], t.pair(code, part))
  }

  /** Octet `n` of a bitmap line on the page that is shown. */
  function BitmapPlace(s: Shot, line: nat, n: nat): (place: nat)
    requires PageShown(s) < PagesOf(s.mode) && line < 256 && n < StrideOf(s.mode)
    ensures place < VRAM_SIZE
  {
    if s.mode == 5 || s.mode == 6 then PageShown(s) * 0x8000 + line * 128 + n
    else PageShown(s) * 0x1_0000 + line * 256 + n
  }

  function PagesOf(mode: nat): nat {
    if mode == 5 || mode == 6 then 4 else 2
  }

  function StrideOf(mode: nat): nat {
    if mode == 5 || mode == 6 then 128 else 256
  }

  /** The caller's page, or the one R#2 selects. */
  function PageShown(s: Shot): nat {
    if s.page.Some? then s.page.value else Reg(s.regs, 2) / 32 % PagesOf(s.mode)
  }

  predicate IndexedStored(v: Vram, s: Shot, t: Screen)
    requires t.Indexed? && PageShown(s) < PagesOf(s.mode)
  {
    && 5 <= s.mode <= 7
    && forall line: nat, n: nat | line < 256 && n < StrideOf(s.mode) ::
         var octet := v[BitmapPlace(s, line, n)];
         if s.mode == 6 then
           && t.colour(line, 4 * n) < 4 && t.colour(line, 4 * n + 1) < 4
           && t.colour(line, 4 * n + 2) < 4 && t.colour(line, 4 * n + 3) < 4
           && octet == 64 * t.colour(line, 4 * n) + 16 * t.colour(line, 4 * n + 1)
                       + 4 * t.colour(line, 4 * n + 2) + t.colour(line, 4 * n + 3)
         else Holds(octet, Pen(t.colour(line, 2 * n), t.colour(line, 2 * n + 1)))
  }

  /** Green, red and blue levels in three, three and two bits. */
  predicate DirectStored(v: Vram, s: Shot, t: Screen)
    requires t.Direct? && PageShown(s) < PagesOf(s.mode)
  {
    && s.mode == 8
    && forall line: nat, n: nat | line < 256 && n < 256 ::
         var (green, red, blue) := t.level(line, n);
         green < 8 && red < 8 && blue < 4 && v[BitmapPlace(s, line, n)] == 32 * green + 4 * red + blue
  }

  /**
   * Four pixels share a six-bit J and K, spread over the low bits of their octets; above are five
   * bits of luminance, or on SCREEN 10 and 11 four bits and a mark for a palette colour.
   */
  predicate TintedStored(v: Vram, s: Shot, t: Screen)
    requires t.Tinted? && PageShown(s) < PagesOf(s.mode)
  {
    && (s.mode == 10 || s.mode == 11 || s.mode == 12)
    && (forall line: nat, g: nat | line < 256 && g < 64 ::
          && -32 <= t.j(line, g) < 32 && -32 <= t.k(line, g) < 32
          && v[BitmapPlace(s, line, 4 * g)] == Upper(s, t, line, 4 * g) + t.k(line, g) % 8
          && v[BitmapPlace(s, line, 4 * g + 1)] == Upper(s, t, line, 4 * g + 1) + t.k(line, g) % 64 / 8
          && v[BitmapPlace(s, line, 4 * g + 2)] == Upper(s, t, line, 4 * g + 2) + t.j(line, g) % 8
          && v[BitmapPlace(s, line, 4 * g + 3)] == Upper(s, t, line, 4 * g + 3) + t.j(line, g) % 64 / 8)
    && forall line: nat, x: nat | line < 256 && x < 256 ::
         && t.lum(line, x) < 32 && (s.mode != 12 ==> t.lum(line, x) % 2 == 0)
         && (t.attribute(line, x).Some? ==> s.mode != 12 && t.attribute(line, x).value < 16)
  }

  function Upper(s: Shot, t: Screen, line: nat, x: nat): nat
    requires t.Tinted?
  {
    match t.attribute(line, x)
    case Some(colour) => 16 * colour + 8
    case None => 8 * t.lum(line, x)
  }

  predicate Stored(v: Vram, s: Shot, t: Screen)
    requires Drawable(s)
  {
    if t.Text? then TextStored(v, s, t)
    else if t.Tiles? then TilesStored(v, s, t)
    else if t.Graphic? then GraphicStored(v, s, t)
    else if t.Blocks? then BlocksStored(v, s, t)
    else s.mode > 4 && PageShown(s) < PagesOf(s.mode)
         && (if t.Indexed? then IndexedStored(v, s, t)
             else if t.Direct? then DirectStored(v, s, t) else TintedStored(v, s, t))
  }

  /** Sprites are off, or the first entry of the attribute table ends the list. */
  predicate Spriteless(v: Vram, s: Shot) {
    || s.mode == 0 || !s.sprites || s.regs[8] / 2 % 2 == 1
    || v[AttributePlace(s.regs, if s.mode <= 3 then 1 else 2, if s.mode <= 3 then 0 else 512)]
       == (if s.mode <= 3 then 208 else 216)
  }

  // ------------------------------------------------------------ what is to be seen

  /** Colour 0 lets the backdrop through, unless R#8 makes it a colour like the others. */
  function Shown(s: Shot, st: Style, colour: nat): Rgb
    requires colour < 16
  {
    if colour == 0 && Reg(s.regs, 8) / 32 % 2 == 0 then st.palette[Reg(s.regs, 7) % 16] else st.palette[colour]
  }

  /** The line of the screen memory at a height of the picture. */
  function LineAt(s: Shot, y: nat): (line: nat)
    ensures line < 256
  {
    (y + Reg(s.regs, 23)) % 256
  }

  /** A level between 0 and the top one, in eight bits. */
  function Level(value: int, top: nat): Byte
    requires top == 3 || top == 7 || top == 31
  {
    var c := if value < 0 then 0 else if value > top then top else value;
    if top == 3 then c * 255 / 3 else if top == 7 then c * 255 / 7 else c * 255 / 31
  }

  function ChromaColour(lum: nat, j: int, k: int): Rgb {
    var blue := 5 * lum - 2 * j - k + 2;
    Rgb(Level(lum + j, 31), Level(lum + k, 31), Level(if blue < 0 then 0 else blue / 4, 31))
  }

  /** The colour a dot of the picture is meant to have. */
  function Meant(s: Shot, st: Style, t: Screen, x: nat, y: nat): Rgb
    requires x < Width(s) && y < s.height <= 256
  {
    var line := LineAt(s, y);
    match t
    case Text(columns, code, blinks, glyph, pen, blinkPen) =>
      var cell := if columns == 80 && st.blink && blinks(y / 8, x / 6) then blinkPen else pen;
      Colour(s, st, if glyph(code(y / 8, x / 6), line % 8, x % 6) then cell.ink else cell.paper)
    case Tiles(code, glyph, group) =>
      var c := code(line / 8, (x / 8 + Reg(s.regs, 26)) % 32);
      Colour(s, st, if glyph(c, line % 8, x % 8) then group(c / 8).ink else group(c / 8).paper)
    case Graphic(code, shape, shade) =>
      var c := code(line / 8, (x / 8 + Reg(s.regs, 26)) % 32);
      var pen := shade(line / 64, c, line % 8);
      Colour(s, st, if shape(line / 64, c, line % 8, x % 8) then pen.ink else pen.paper)
    case Blocks(code, pair) =>
      var pen := pair(code(line / 8, (x / 8 + Reg(s.regs, 26)) % 32), line / 4 % 8);
      Colour(s, st, if x % 8 < 4 then pen.ink else pen.paper)
    case Indexed(colour) =>
      if s.mode == 6 then
        var sx := (x + 16 * Reg(s.regs, 26)) % 512;
        if colour(line, sx) == 0 && Reg(s.regs, 8) / 32 % 2 == 0
        then st.palette[if sx % 2 == 0 then Reg(s.regs, 7) / 4 % 4 else Reg(s.regs, 7) % 4]
        else Plain(st, colour(line, sx))
      else if s.mode == 7 then Colour(s, st, colour(line, (x + 16 * Reg(s.regs, 26)) % 512))
      else Colour(s, st, colour(line, (x + 8 * Reg(s.regs, 26)) % 256))
    case Direct(level) =>
      var (green, red, blue) := level(line, (x + 8 * Reg(s.regs, 26)) % 256);
      Rgb(Level(red, 7), Level(green, 7), Level(blue, 3))
    case Tinted(lum, j, k, attribute) =>
      var sx := (x + 8 * Reg(s.regs, 26)) % 256;
      match attribute(line, sx)
      case Some(colour) => Colour(s, st, colour)
      case None => ChromaColour(lum(line, sx), j(line, sx / 4), k(line, sx / 4))
  }

  function Colour(s: Shot, st: Style, colour: nat): Rgb {
    if colour < 16 then Shown(s, st, colour) else BLACK
  }

  function Plain(st: Style, colour: nat): Rgb {
    if colour < 16 then st.palette[colour] else BLACK
  }

  // ------------------------------------------------------------ the screenshot shows it

  lemma NoSprites(v: Vram, s: Shot, st: Style, x: nat, y: nat)
    requires Drawable(s) && Spriteless(v, s) && x < Width(s) && y < s.height
    ensures Pixel(v, s, st, x, y) == Background(v, s, st, x, y)
  {
    hide Background, And, TableAddr, Paint;
    if DrawsSprites(s) {
      AttributePlaces(s.regs, SpriteMode(s.mode), if s.mode <= 3 then 0 else 512);
      var first: nat := if SpriteMode(s.mode) == 1 then 0 else 512;
      assert Attribute(v, s, 0, 0) == v[AttributePlace(s.regs, SpriteMode(s.mode), first)];
      assert Attribute(v, s, 0, 0) == Terminator(s);
      assert Records(v, s, 0) == [];
      assert VisibleSprites(v, s, [], y, Limit(s)) == [];
    }
  }

  lemma ForegroundShows(s: Shot, st: Style, colour: nat)
    requires colour < 16 && s.mode != 8
    ensures Foreground(s, st.palette)[colour] == Shown(s, st, colour)
  {
  }

  lemma Halved(octet: nat, pen: Pen)
    requires Holds(octet, pen)
    ensures octet / 16 == pen.ink && octet % 16 == pen.paper
  {
  }

  lemma GlyphShown(v: Vram, s: Shot, glyph: (nat, nat, nat) -> bool, code: nat, line: nat, i: nat)
    requires GlyphsStored(v, s, glyph) && code < 256 && line < 8 && i < 8
    ensures Bit(Fetch(v, Patterns(s.regs, 11), code * 8 + line), i) == glyph(code, line, i)
  {
    hide And, TableAddr, Bit, Dots8, Patterns, PatternPlace;
    PatternPlaces(s.regs, code * 8 + line);
    assert GlyphStored(v, s, glyph, code, line);
    DotsAreBits((dot: nat) => glyph(code, line, dot), i);
  }

  lemma TextCell(v: Vram, s: Shot, t: Screen, row: nat, column: nat)
    requires t.Text? && TextStored(v, s, t) && row * 8 < s.height <= 256 && column < t.columns
    ensures TextColumns(s) == t.columns && t.code(row, column) < 256
    ensures TextChar(v, s, row, column) == t.code(row, column)
  {
    hide And, TableAddr, GlyphsStored, BlinksStored, Holds, Names, TextNamePlace;
    NamePlaces(s.regs, row, column);
  }

  lemma TextBlinks(v: Vram, s: Shot, t: Screen, blink: bool, row: nat, column: nat)
    requires t.Text? && TextStored(v, s, t) && row * 8 < s.height <= 256 && column < t.columns
    ensures Blinks(v, s, blink, row, column) <==> t.columns == 80 && blink && t.blinks(row, column)
  {
    hide And, TableAddr, GlyphsStored, Holds, Bit, Dots8, Colours, BlinkPlace, TextNamePlace, TextChar;
    TextCell(v, s, t, row, column);
    if t.columns == 80 {
      ColourPlaces(s.regs, row * 10 + column / 8);
      assert BlinksStored(v, s, t.blinks, row, column / 8);
      DotsAreBits((k: nat) => t.blinks(row, column / 8 * 8 + k), column % 8);
      assert column / 8 * 8 + column % 8 == column;
    }
  }

  lemma TextShown(v: Vram, s: Shot, st: Style, t: Screen, x: nat, y: nat)
    requires Drawable(s) && t.Text? && TextStored(v, s, t) && x < Width(s) && y < s.height
    ensures Background(v, s, st, x, y) == Meant(s, st, t, x, y)
  {
    hide And, TableAddr, Bit, Foreground, Colour, Fetch, TextChar, Blinks, GlyphsStored, BlinksStored, TextNamePlace,
      Patterns, TextColumns, TextColumnsAre, Drawable, Width, Holds;
    TextBounds(s, t, x, y);
    var row, column, j := y / 8, x / 6, LineAt(s, y) % 8;
    assert (y + Reg(s.regs, 23)) % 8 == j;
    TextCell(v, s, t, row, column);
    TextBlinks(v, s, t, st.blink, row, column);
    GlyphShown(v, s, t.glyph, t.code(row, column), j, x % 6);
    PenShown(s, st, Reg(s.regs, 7), t.pen);
    PenShown(s, st, Reg(s.regs, 12), t.blinkPen);
  }

  lemma TextBounds(s: Shot, t: Screen, x: nat, y: nat)
    requires Drawable(s) && t.Text? && s.mode == 0 && TextColumnsAre(s, t.columns) && x < Width(s) && y < s.height
    ensures x / 6 < t.columns && y / 8 < 32 && y / 8 * 8 < s.height <= 256
  {
    WidthOfText(s, t.columns);
  }

  lemma WidthOfText(s: Shot, columns: nat)
    requires s.mode == 0 && TextColumnsAre(s, columns)
    ensures Width(s) == columns * 6
  {
  }

  // ------------------------------------------------------------ tiles

  lemma TileCell(v: Vram, s: Shot, code: (nat, nat) -> nat, line: nat, column: nat)
    requires CellsStored(v, s, code) && line < 256 && column < 32
    ensures code(line / 8, (column + Reg(s.regs, 26)) % 32) < 256
    ensures TileChar(v, s, line, column) == code(line / 8, (column + Reg(s.regs, 26)) % 32)
  {
    hide And, TableAddr, Names, NamePlace;
    var shown := (column + Reg(s.regs, 26)) % 32;
    assert shown == (column + Reg(s.regs, 26) % 32) % 32;
    NamePlaces(s.regs, line / 8, shown);
  }

  lemma PenShown(s: Shot, st: Style, octet: nat, pen: Pen)
    requires Holds(octet, pen) && s.mode != 8
    ensures octet < 256
    ensures Foreground(s, st.palette)[octet / 16] == Colour(s, st, pen.ink)
    ensures Foreground(s, st.palette)[octet % 16] == Colour(s, st, pen.paper)
  {
    hide Foreground, Shown;
    Halved(octet, pen);
    ForegroundShows(s, st, pen.ink);
    ForegroundShows(s, st, pen.paper);
  }

  lemma TilesShown(v: Vram, s: Shot, st: Style, t: Screen, x: nat, y: nat)
    requires Drawable(s) && t.Tiles? && TilesStored(v, s, t) && x < Width(s) && y < s.height
    ensures Background(v, s, st, x, y) == Meant(s, st, t, x, y)
  {
    hide And, TableAddr, Bit, Foreground, Colour, Fetch, TileChar, CellsStored, GlyphsStored, ColourPlace, Patterns,
      Colours, Holds;
    var line := LineAt(s, y);
    TileCell(v, s, t.code, line, x / 8);
    var code := TileChar(v, s, line, x / 8);
    GlyphShown(v, s, t.glyph, code, line % 8, x % 8);
    TileColour(v, s, code / 8);
    PenShown(s, st, Fetch(v, Colours(s.regs, 6), code / 8), t.group(code / 8));
  }

  lemma TileColour(v: Vram, s: Shot, g: nat)
    requires g < 32
    ensures Fetch(v, Colours(s.regs, 6), g) == v[ColourPlace(s.regs, g)]
  {
    hide And, TableAddr, Colours, ColourPlace;
    ColourPlaces(s.regs, g);
  }

  lemma ShapeShown(v: Vram, s: Shot, t: Screen, third: nat, code: nat, line: nat, i: nat)
    requires t.Graphic? && GraphicStored(v, s, t) && third < 4 && code < 256 && line < 8 && i < 8
    requires Displayed(s, third)
    ensures var place := (third * 256 + code) * 8 + line;
            && (Bit(Fetch(v, Patterns(s.regs, 13), place), i) <==> t.shape(third, code, line, i))
            && Holds(Fetch(v, Colours(s.regs, 13), place), t.shade(third, code, line))
  {
    hide And, TableAddr, Bit, Dots8, Patterns, Colours, WidePatternPlace, WideColourPlace, CellsStored, Holds,
      Displayed;
    var place := third * 2048 + code * 8 + line;
    assert (third * 256 + code) * 8 + line == place;
    PatternPlaces(s.regs, place);
    ColourPlaces(s.regs, place);
    assert ShapeStored(v, s, t, third, code, line);
    DotsAreBits((dot: nat) => t.shape(third, code, line, dot), i);
  }

  lemma GraphicShown(v: Vram, s: Shot, st: Style, t: Screen, x: nat, y: nat)
    requires Drawable(s) && t.Graphic? && GraphicStored(v, s, t) && x < Width(s) && y < s.height
    ensures Background(v, s, st, x, y) == Meant(s, st, t, x, y)
  {
    hide And, TableAddr, Bit, Foreground, Colour, Fetch, TileChar, CellsStored, ShapeStored, Patterns, Colours, Holds;
    var line := LineAt(s, y);
    TileCell(v, s, t.code, line, x / 8);
    var code := TileChar(v, s, line, x / 8);
    ShapeShown(v, s, t, line / 64, code, line % 8, x % 8);
    var place := (line / 64 * 256 + code) * 8 + line % 8;
    PenShown(s, st, Fetch(v, Colours(s.regs, 13), place), t.shade(line / 64, code, line % 8));
  }

  lemma BlocksShown(v: Vram, s: Shot, st: Style, t: Screen, x: nat, y: nat)
    requires Drawable(s) && t.Blocks? && BlocksStored(v, s, t) && x < Width(s) && y < s.height
    ensures Background(v, s, st, x, y) == Meant(s, st, t, x, y)
  {
    hide And, TableAddr, Foreground, Colour, Fetch, TileChar, CellsStored, Patterns, Holds, PatternPlace;
    var line := LineAt(s, y);
    TileCell(v, s, t.code, line, x / 8);
    var code, part := TileChar(v, s, line, x / 8), line / 4 % 8;
    BlockPair(v, s, code * 8 + part);
    PenShown(s, st, Fetch(v, Patterns(s.regs, 11), code * 8 + part), t.pair(code, part));
    assert Bit(0xF0, x % 8) <==> x % 8 < 4;
  }

  lemma BlockPair(v: Vram, s: Shot, i: nat)
    requires i < 0x800
    ensures Fetch(v, Patterns(s.regs, 11), i) == v[PatternPlace(s.regs, i)]
  {
    hide And, TableAddr, Patterns, PatternPlace;
    PatternPlaces(s.regs, i);
  }

  // ------------------------------------------------------------ bitmaps

  lemma OctetStored(v: Vram, s: Shot, line: nat, n: nat)
    requires Drawable(s) && s.mode > 4 && line < 256 && n < StrideOf(s.mode)
    ensures PageShown(s) < PagesOf(s.mode) && Stride(s.mode) == StrideOf(s.mode)
    ensures Octet(v, s, PageBase(s).value, line, n) == v[BitmapPlace(s, line, n)]
  {
  }

  lemma IndexedShown(v: Vram, s: Shot, st: Style, t: Screen, x: nat, y: nat)
    requires Drawable(s) && t.Indexed? && s.mode > 4 && PageShown(s) < PagesOf(s.mode) && IndexedStored(v, s, t)
    requires x < Width(s) && y < s.height
    ensures Background(v, s, st, x, y) == Meant(s, st, t, x, y)
  {
    hide Foreground, Colour, Octet, BitmapPlace, PageShown, PageBase, Stride, LinePixel, IndexedStored, ScrollX;
    var line, sx := LineAt(s, y), (x + ScrollX(s)) % Width(s);
    ScrollIs(s, x);
    if s.mode == 6 {
      QuarterShown(v, s, st, t, line, sx);
    } else {
      HalfShown(v, s, st, t, line, sx);
    }
  }

  lemma HalfShown(v: Vram, s: Shot, st: Style, t: Screen, line: nat, sx: nat)
    requires Drawable(s) && t.Indexed? && s.mode > 4 && PageShown(s) < PagesOf(s.mode) && IndexedStored(v, s, t)
    requires s.mode != 6 && line < 256 && sx < Width(s)
    ensures LinePixel(v, s, st, PageBase(s).value, line, sx) == Colour(s, st, t.colour(line, sx))
  {
    hide Foreground, Colour, Octet, BitmapPlace, PageShown, PageBase, Stride, Holds;
    var n := sx / 2;
    OctetStored(v, s, line, n);
    PenShown(s, st, v[BitmapPlace(s, line, n)], Pen(t.colour(line, 2 * n), t.colour(line, 2 * n + 1)));
  }

  lemma QuarterShown(v: Vram, s: Shot, st: Style, t: Screen, line: nat, sx: nat)
    requires Drawable(s) && t.Indexed? && s.mode == 6 && PageShown(s) < PagesOf(s.mode) && IndexedStored(v, s, t)
    requires line < 256 && sx < 512
    ensures LinePixel(v, s, st, PageBase(s).value, line, sx)
         == if t.colour(line, sx) == 0 && Reg(s.regs, 8) / 32 % 2 == 0
            then st.palette[if sx % 2 == 0 then Reg(s.regs, 7) / 4 % 4 else Reg(s.regs, 7) % 4]
            else Plain(st, t.colour(line, sx))
  {
    hide Octet, BitmapPlace, PageShown, PageBase, Stride;
    var n := sx / 4;
    OctetStored(v, s, line, n);
    FourIn(v[BitmapPlace(s, line, n)], sx % 4, t.colour(line, 4 * n), t.colour(line, 4 * n + 1),
           t.colour(line, 4 * n + 2), t.colour(line, 4 * n + 3));
    assert sx == 4 * n + sx % 4;
  }

  lemma ScrollIs(s: Shot, x: nat)
    requires s.mode > 4
    ensures (x + ScrollX(s)) % Width(s)
         == if s.mode == 6 || s.mode == 7 then (x + 16 * Reg(s.regs, 26)) % 512 else (x + 8 * Reg(s.regs, 26)) % 256
  {
    hide ScrollX, Width;
    var low, turns := Reg(s.regs, 26) % 32, Reg(s.regs, 26) / 32;
    FullTurns(x + 16 * low, x + 8 * low, turns);
    ScrollStep(s);
  }

  lemma FullTurns(a: nat, b: nat, turns: nat)
    ensures (a + 512 * turns) % 512 == a % 512 && (b + 256 * turns) % 256 == b % 256
  {
  }

  lemma ScrollStep(s: Shot)
    requires s.mode > 4
    ensures Width(s) == if s.mode == 6 || s.mode == 7 then 512 else 256
    ensures ScrollX(s) == Reg(s.regs, 26) % 32 * (if s.mode == 6 || s.mode == 7 then 16 else 8)
  {
  }

  lemma FourIn(octet: nat, i: nat, a: nat, b: nat, c: nat, d: nat)
    requires a < 4 && b < 4 && c < 4 && d < 4 && octet == 64 * a + 16 * b + 4 * c + d && i < 4
    ensures octet / [64, 16, 4, 1][i] % 4 == [a, b, c, d][i]
  {
    Quarters(octet, a, b, c, d);
    match i
    case 0 => assert [64, 16, 4, 1][i] == 64;
    case 1 => assert [64, 16, 4, 1][i] == 16;
    case 2 => assert [64, 16, 4, 1][i] == 4;
    case 3 => assert [64, 16, 4, 1][i] == 1;
  }

  lemma Quarters(octet: nat, a: nat, b: nat, c: nat, d: nat)
    requires a < 4 && b < 4 && c < 4 && d < 4 && octet == 64 * a + 16 * b + 4 * c + d
    ensures octet / 64 % 4 == a && octet / 16 % 4 == b && octet / 4 % 4 == c && octet / 1 % 4 == d
  {
    assert octet / 4 == 16 * a + 4 * b + c;
    assert octet / 16 == 4 * a + b;
    assert octet / 64 == a;
  }

  lemma ThreeIn(octet: nat, green: nat, red: nat, blue: nat)
    requires green < 8 && red < 8 && blue < 4 && octet == 32 * green + 4 * red + blue
    ensures octet / 32 % 8 == green && octet / 4 % 8 == red && octet % 4 == blue
  {
    assert octet / 4 == 8 * green + red;
  }

  lemma DirectShown(v: Vram, s: Shot, st: Style, t: Screen, x: nat, y: nat)
    requires Drawable(s) && t.Direct? && s.mode > 4 && PageShown(s) < PagesOf(s.mode) && DirectStored(v, s, t)
    requires x < Width(s) && y < s.height
    ensures Background(v, s, st, x, y) == Meant(s, st, t, x, y)
  {
    hide Foreground, Octet, BitmapPlace, PageShown, PageBase, Stride, ScrollX;
    var line, sx := LineAt(s, y), (x + ScrollX(s)) % Width(s);
    ScrollIs(s, x);
    OctetStored(v, s, line, sx);
    var (green, red, blue) := t.level(line, sx);
    ThreeIn(v[BitmapPlace(s, line, sx)], green, red, blue);
  }

  lemma TintedShown(v: Vram, s: Shot, st: Style, t: Screen, x: nat, y: nat)
    requires Drawable(s) && t.Tinted? && s.mode > 4 && PageShown(s) < PagesOf(s.mode) && TintedStored(v, s, t)
    requires x < Width(s) && y < s.height
    ensures Background(v, s, st, x, y) == Meant(s, st, t, x, y)
  {
    hide Foreground, Octet, BitmapPlace, PageShown, PageBase, Stride, ScrollX, LinePixel, Colour, ChromaColour,
      Upper;
    var line, sx := LineAt(s, y), (x + ScrollX(s)) % Width(s);
    ScrollIs(s, x);
    GroupShown(v, s, st, t, line, sx / 4, sx % 4);
  }

  /** A chroma value comes back from its two parts, sign included. */
  lemma ChromaParts(c: int, a: nat, b: nat)
    requires -32 <= c < 32 && a % 8 == c % 8 && b % 8 == c % 64 / 8
    ensures Chroma(a, b) == c
  {
    assert b % 8 == b % 4 + b / 4 % 2 * 4;
    var six := c % 64;
    assert six == if c < 0 then c + 64 else c;
    assert six % 8 == c % 8;
  }

  lemma UpperAndPart(s: Shot, t: Screen, line: nat, x: nat, octet: nat, part: nat)
    requires t.Tinted? && octet == Upper(s, t, line, x) + part && part < 8
    ensures octet % 8 == part
    ensures match t.attribute(line, x)
            case Some(colour) => octet / 16 == colour && octet / 8 % 2 == 1
            case None => octet / 8 == t.lum(line, x)
  {
    assert octet / 8 == Upper(s, t, line, x) / 8;
  }

  lemma YjkShows(lum: nat, j: int, k: int)
    requires lum < 32
    ensures YjkRgb(lum, j, k) == ChromaColour(lum, j, k)
  {
  }

  /** The high bits of an octet: a palette colour and its mark, or the luminance. */
  predicate Above(v: Vram, s: Shot, t: Screen, line: nat, x: nat)
    requires t.Tinted? && s.mode > 6 && PageShown(s) < PagesOf(s.mode) && line < 256 && x < 256
  {
    var octet := v[BitmapPlace(s, line, x)];
    match t.attribute(line, x)
    case Some(colour) => octet / 16 == colour && octet / 8 % 2 == 1
    case None => octet / 8 == t.lum(line, x)
  }

  /** What the four octets of a group say. */
  lemma GroupParts(v: Vram, s: Shot, t: Screen, line: nat, g: nat)
    requires t.Tinted? && s.mode > 4 && PageShown(s) < PagesOf(s.mode) && TintedStored(v, s, t)
    requires line < 256 && g < 64
    ensures Chroma(v[BitmapPlace(s, line, 4 * g)], v[BitmapPlace(s, line, 4 * g + 1)]) == t.k(line, g)
    ensures Chroma(v[BitmapPlace(s, line, 4 * g + 2)], v[BitmapPlace(s, line, 4 * g + 3)]) == t.j(line, g)
    ensures Above(v, s, t, line, 4 * g) && Above(v, s, t, line, 4 * g + 1)
    ensures Above(v, s, t, line, 4 * g + 2) && Above(v, s, t, line, 4 * g + 3)
  {
    hide BitmapPlace, PageShown, Upper, Chroma;
    var j, k := t.j(line, g), t.k(line, g);
    var a, b := v[BitmapPlace(s, line, 4 * g)], v[BitmapPlace(s, line, 4 * g + 1)];
    var c, d := v[BitmapPlace(s, line, 4 * g + 2)], v[BitmapPlace(s, line, 4 * g + 3)];
    UpperAndPart(s, t, line, 4 * g, a, k % 8);
    UpperAndPart(s, t, line, 4 * g + 1, b, k % 64 / 8);
    UpperAndPart(s, t, line, 4 * g + 2, c, j % 8);
    UpperAndPart(s, t, line, 4 * g + 3, d, j % 64 / 8);
    ChromaParts(k, a, b);
    ChromaParts(j, c, d);
  }

  lemma GroupShown(v: Vram, s: Shot, st: Style, t: Screen, line: nat, g: nat, i: nat)
    requires Drawable(s) && t.Tinted? && s.mode > 4 && PageShown(s) < PagesOf(s.mode) && TintedStored(v, s, t)
    requires line < 256 && g < 64 && i < 4
    ensures LinePixel(v, s, st, PageBase(s).value, line, 4 * g + i)
         == match t.attribute(line, 4 * g + i)
            case Some(colour) => Colour(s, st, colour)
            case None => ChromaColour(t.lum(line, 4 * g + i), t.j(line, g), t.k(line, g))
  {
    hide Foreground, Octet, BitmapPlace, PageShown, PageBase, Stride, Upper, Chroma, YjkRgb, ChromaColour, Shown,
      YjkPixel, Above;
    var x := 4 * g + i;
    OctetStored(v, s, line, 4 * g);
    OctetStored(v, s, line, 4 * g + 1);
    OctetStored(v, s, line, 4 * g + 2);
    OctetStored(v, s, line, 4 * g + 3);
    GroupParts(v, s, t, line, g);
    assert x / 4 * 4 == 4 * g && x % 4 == i;
    var octets := [v[BitmapPlace(s, line, 4 * g)], v[BitmapPlace(s, line, 4 * g + 1)],
                   v[BitmapPlace(s, line, 4 * g + 2)], v[BitmapPlace(s, line, 4 * g + 3)]];
    assert octets[i] == v[BitmapPlace(s, line, x)] && Above(v, s, t, line, x);
    TintShown(v, s, st, t, line, g, i, octets);
  }

  lemma TintShown(v: Vram, s: Shot, st: Style, t: Screen, line: nat, g: nat, i: nat, octets: seq<nat>)
    requires t.Tinted? && s.mode > 4 && PageShown(s) < PagesOf(s.mode) && TintedStored(v, s, t)
    requires line < 256 && g < 64 && i < 4 && |octets| == 4 && forall o <- octets :: o < 256
    requires octets[i] == v[BitmapPlace(s, line, 4 * g + i)] && Above(v, s, t, line, 4 * g + i)
    requires Chroma(octets[0], octets[1]) == t.k(line, g) && Chroma(octets[2], octets[3]) == t.j(line, g)
    ensures YjkPixel(octets, Foreground(s, st.palette), s.mode == 10 || s.mode == 11, i)
         == match t.attribute(line, 4 * g + i)
            case Some(colour) => Colour(s, st, colour)
            case None => ChromaColour(t.lum(line, 4 * g + i), t.j(line, g), t.k(line, g))
  {
    hide Foreground, BitmapPlace, PageShown, Upper, Chroma, YjkRgb, ChromaColour, Shown;
    var x := 4 * g + i;
    assert octets[i] in octets;
    if t.attribute(line, x).Some? {
      ForegroundShows(s, st, t.attribute(line, x).value);
    } else {
      YjkShows(t.lum(line, x), t.j(line, g), t.k(line, g));
    }
  }

  // ------------------------------------------------------------ the theorem

  /** Six dots a character, eight a tile, and as many pixels as the mode has. */
  function ViewWidth(s: Shot): nat {
    if s.mode == 0 then (if TextColumnsAre(s, 40) then 240 else 480)
    else if s.mode == 6 || s.mode == 7 then 512 else 256
  }

  lemma ViewIsPicture(s: Shot)
    requires Drawable(s)
    ensures Width(s) == ViewWidth(s)
  {
  }

  /** A screen that is stored in memory is what is shown where there is no sprite. */
  lemma StoredIsBackground(v: Vram, s: Shot, st: Style, t: Screen, x: nat, y: nat)
    requires Drawable(s) && Stored(v, s, t) && x < Width(s) && y < s.height
    ensures Background(v, s, st, x, y) == Meant(s, st, t, x, y)
  {
    hide Meant, Background, Width, TextStored, TilesStored, GraphicStored, BlocksStored,
      IndexedStored, DirectStored, TintedStored, PageShown;
    match t
    case Text(_, _, _, _, _, _) => TextShown(v, s, st, t, x, y);
    case Tiles(_, _, _) => TilesShown(v, s, st, t, x, y);
    case Graphic(_, _, _) => GraphicShown(v, s, st, t, x, y);
    case Blocks(_, _) => BlocksShown(v, s, st, t, x, y);
    case Indexed(_) => IndexedShown(v, s, st, t, x, y);
    case Direct(_) => DirectShown(v, s, st, t, x, y);
    case Tinted(_, _, _, _) => TintedShown(v, s, st, t, x, y);
  }

  lemma StoredIsShown(v: Vram, s: Shot, st: Style, t: Screen, x: nat, y: nat)
    requires Drawable(s) && Stored(v, s, t) && Spriteless(v, s) && x < Width(s) && y < s.height
    ensures Pixel(v, s, st, x, y) == Meant(s, st, t, x, y)
  {
    hide Pixel, Meant, Background, Spriteless, Width, Stored;
    NoSprites(v, s, st, x, y);
    StoredIsBackground(v, s, st, t, x, y);
  }

  /** A screenshot of a stored screen is this screen. */
  method Photograph(v: Vram, s: Shot, st: Style, t: Screen) returns (output: array2<Rgb>)
    requires Drawable(s) && Stored(v, s, t) && Spriteless(v, s)
    ensures output.Length0 == s.height && output.Length1 == ViewWidth(s) == Width(s)
    ensures forall x: nat, y: nat | x < Width(s) && y < s.height :: output[y, x] == Meant(s, st, t, x, y)
  {
    hide Pixel, Meant, Stored, Spriteless, Drawable, Width, ViewWidth;
    Possible(s);
    ViewIsPicture(s);
    var picture := Screenshot(v, s, st);
    output := picture;
    forall x: nat, y: nat | x < Width(s) && y < s.height
      ensures output[y, x] == Meant(s, st, t, x, y)
    {
      StoredIsShown(v, s, st, t, x, y);
    }
  }

  lemma Possible(s: Shot)
    requires Drawable(s)
    ensures Supported(s.mode) && s.height <= 256
  {
  }

  // ------------------------------------------------------------ an encoder

  /** A screen that can be encoded, and the registers as the BIOS sets them for it; sprites are off. */
  predicate Usual(s: Shot, t: Screen) {
    && 1 <= s.height <= 192 && !s.sprites
    && match t
       case Text(columns, code, _, _, pen, blinkPen) =>
         && s.mode == 0 && columns == 40 && TextColumnsAre(s, 40) && Reg(s.regs, 2) == 0 && Reg(s.regs, 4) == 1
         && Holds(Reg(s.regs, 7), pen) && Holds(Reg(s.regs, 12), blinkPen)
         && forall row: nat, column: nat | row < 24 && column < 40 :: code(row, column) < 256
       case Graphic(code, _, shade) =>
         && (s.mode == 2 || s.mode == 4) && Reg(s.regs, 23) == 0
         && Reg(s.regs, 2) == 6 && Reg(s.regs, 4) == 3 && Reg(s.regs, 3) == 0xFF && Reg(s.regs, 10) == 0
         && (forall row: nat, column: nat | row < 32 && column < 32 :: code(row, column) < 256)
         && forall third: nat, c: nat, line: nat | third < 3 && c < 256 && line < 8 ::
              shade(third, c, line).ink < 16 && shade(third, c, line).paper < 16
       case Indexed(colour) =>
         && (s.mode == 5 || s.mode == 7) && s.page == Some(0)
         && forall line: nat, x: nat | line < 256 && x < 512 :: colour(line, x) < 16
       case _ => false
  }

  /** Octet `a` of the screen's memory: three tables, or one octet for two pixels. */
  function Encoded(t: Screen, mode: nat, a: nat): nat {
    match t
    case Text(_, code, _, glyph, _, _) =>
      if a < 960 then code(a / 40, a % 40)
      else if 0x800 <= a < 0x1000 then Dots8((dot: nat) => glyph((a - 0x800) / 8, a % 8, dot)) else 0
    case Graphic(code, shape, shade) =>
      if a < 0x1800 then Dots8((dot: nat) => shape(a / 2048, a / 8 % 256, a % 8, dot))
      else if a < 0x1C00 then code((a - 0x1800) / 32, a % 32)
      else if 0x2000 <= a < 0x3800 then
        var pen := shade((a - 0x2000) / 2048, a / 8 % 256, a % 8);
        16 * pen.ink + pen.paper
      else 0
    case Indexed(colour) =>
      if mode == 5 then
        if a < 0x8000 then 16 * colour(a / 128, 2 * (a % 128)) + colour(a / 128, 2 * (a % 128) + 1) else 0
      else
        if a < 0x1_0000 then 16 * colour(a / 256, 2 * (a % 256)) + colour(a / 256, 2 * (a % 256) + 1) else 0
    case _ => 0
  }

  lemma EncodedFits(s: Shot, t: Screen, a: nat)
    requires Usual(s, t) && a < VRAM_SIZE
    ensures Encoded(t, s.mode, a) < 256
  {
    hide Dots8;
  }

  function Memory(s: Shot, t: Screen): (v: Vram)
    requires Usual(s, t)
  {
    seq(VRAM_SIZE, a requires 0 <= a < VRAM_SIZE => EncodedFits(s, t, a); Encoded(t, s.mode, a) as Byte)
  }

  lemma MemoryHoldsText(s: Shot, t: Screen)
    requires Usual(s, t) && t.Text?
    ensures TextStored(Memory(s, t), s, t)
  {
    hide Dots8, Encoded, Memory, TextNamePlace, TextColumnsAre, Holds, GlyphStored;
    forall code: nat, line: nat | code < 256 && line < 8 ensures GlyphStored(Memory(s, t), s, t.glyph, code, line) {
      GlyphEncoded(s, t, code, line);
    }
    forall row: nat, column: nat | row < 24 && column < 40
      ensures Memory(s, t)[TextNamePlace(s.regs, 40, row, column)] == t.code(row, column)
    {
      CharacterEncoded(s, t, row, column);
    }
  }

  lemma GlyphEncoded(s: Shot, t: Screen, code: nat, line: nat)
    requires Usual(s, t) && t.Text? && code < 256 && line < 8
    ensures GlyphStored(Memory(s, t), s, t.glyph, code, line)
  {
    hide Dots8;
    var a := PatternPlace(s.regs, code * 8 + line);
    assert (a - 0x800) / 8 == code && a % 8 == line;
  }

  lemma CharacterEncoded(s: Shot, t: Screen, row: nat, column: nat)
    requires Usual(s, t) && t.Text? && row < 24 && column < 40
    ensures Memory(s, t)[TextNamePlace(s.regs, 40, row, column)] == t.code(row, column)
  {
    hide Dots8, And, Holds, TextColumnsAre;
    NoneShared();
    var a := row * 40 + column;
    assert And(0, (0xC00 + a) / 1024 % 4) == 0;
    assert TextNamePlace(s.regs, 40, row, column) == a;
    assert a / 40 == row && a % 40 == column;
  }

  lemma MemoryHoldsGraphic(s: Shot, t: Screen)
    requires Usual(s, t) && t.Graphic?
    ensures GraphicStored(Memory(s, t), s, t)
  {
    hide Dots8, WidePatternPlace, WideColourPlace, Encoded;
    forall row: nat, column: nat | row < 32 && column < 32
      ensures Memory(s, t)[NamePlace(s.regs, row, column)] == t.code(row, column)
    {
      NameEncoded(s, t, row, column);
    }
    forall third: nat, code: nat, line: nat | third < 4 && code < 256 && line < 8 && Displayed(s, third)
      ensures ShapeStored(Memory(s, t), s, t, third, code, line)
    {
      assert third < 3;
      ShapeEncoded(s, t, third, code, line);
    }
  }

  lemma NameEncoded(s: Shot, t: Screen, row: nat, column: nat)
    requires Usual(s, t) && t.Graphic? && row < 32 && column < 32
    ensures Memory(s, t)[NamePlace(s.regs, row, column)] == t.code(row, column)
  {
    hide Dots8;
    var a := NamePlace(s.regs, row, column);
    assert (a - 0x1800) / 32 == row && a % 32 == column;
  }

  lemma ShapeEncoded(s: Shot, t: Screen, third: nat, code: nat, line: nat)
    requires Usual(s, t) && t.Graphic? && third < 3 && code < 256 && line < 8
    ensures ShapeStored(Memory(s, t), s, t, third, code, line)
  {
    hide Dots8, WidePatternPlace, WideColourPlace, Encoded, And;
    var i := third * 2048 + code * 8 + line;
    UsualPlaces(s, i);
    TablesEncoded(s, t, third, code, line);
  }

  lemma TablesEncoded(s: Shot, t: Screen, third: nat, code: nat, line: nat)
    requires t.Graphic? && third < 3 && code < 256 && line < 8
    ensures var i, pen := third * 2048 + code * 8 + line, t.shade(third, code, line);
            && Encoded(t, s.mode, i) == Dots8((dot: nat) => t.shape(third, code, line, dot))
            && Encoded(t, s.mode, 0x2000 + i) == 16 * pen.ink + pen.paper
  {
    hide Dots8;
    ThreeParts(third, code, line);
  }

  lemma ThreeParts(third: nat, code: nat, line: nat)
    requires third < 3 && code < 256 && line < 8
    ensures var i := third * 2048 + code * 8 + line;
            && i / 2048 == third && i / 8 % 256 == code && i % 8 == line
            && (0x2000 + i) / 8 % 256 == code && (0x2000 + i) % 8 == line
  {
    var i := third * 2048 + code * 8 + line;
    assert i / 8 == third * 256 + code;
    assert (0x2000 + i) / 8 == 1024 + third * 256 + code;
  }

  /** With every bit of the overlap set, the tables are contiguous. */
  lemma UsualPlaces(s: Shot, i: nat)
    requires i < 0x1800
    requires Reg(s.regs, 4) == 3 && Reg(s.regs, 3) == 0xFF && Reg(s.regs, 10) == 0
    ensures WidePatternPlace(s.regs, i) == i && WideColourPlace(s.regs, i) == 0x2000 + i
  {
    hide And;
    assert Pow2(2) == 4 && Pow2(7) == 128;
    AllLines(2, i / 2048);
    AllLines(7, i / 64);
  }

  lemma MemoryHoldsIndexed(s: Shot, t: Screen)
    requires Usual(s, t) && t.Indexed?
    ensures PageShown(s) < PagesOf(s.mode) && IndexedStored(Memory(s, t), s, t)
  {
    var v := Memory(s, t);
    forall line: nat, n: nat | line < 256 && n < StrideOf(s.mode)
      ensures Holds(v[BitmapPlace(s, line, n)], Pen(t.colour(line, 2 * n), t.colour(line, 2 * n + 1)))
    {
      OctetEncoded(s, t, line, n);
    }
  }

  lemma OctetEncoded(s: Shot, t: Screen, line: nat, n: nat)
    requires Usual(s, t) && t.Indexed? && line < 256 && n < StrideOf(s.mode) && PageShown(s) < PagesOf(s.mode)
    ensures Memory(s, t)[BitmapPlace(s, line, n)] == 16 * t.colour(line, 2 * n) + t.colour(line, 2 * n + 1)
  {
    var a := BitmapPlace(s, line, n);
    if s.mode == 5 {
      assert a / 128 == line && a % 128 == n;
    } else {
      assert a / 256 == line && a % 256 == n;
    }
  }

  /** Encoding a screen and taking the screenshot gives the screen back. */
  method RoundTrip(s: Shot, st: Style, t: Screen) returns (output: array2<Rgb>)
    requires Usual(s, t)
    ensures output.Length0 == s.height
    ensures output.Length1 == Width(s) == if s.mode == 0 then 240 else if s.mode == 7 then 512 else 256
    ensures forall x: nat, y: nat | x < Width(s) && y < s.height :: output[y, x] == Meant(s, st, t, x, y)
  {
    hide Encoded, Meant, TextStored, GraphicStored, IndexedStored;
    if t.Text? {
      MemoryHoldsText(s, t);
    } else if t.Graphic? {
      MemoryHoldsGraphic(s, t);
    } else {
      MemoryHoldsIndexed(s, t);
    }
    var v := Memory(s, t);
    output := Photograph(v, s, st, t);
  }
}

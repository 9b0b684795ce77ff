/**
 * The picture a V9938/V9958 shows: what every pixel is, as a function of video memory and the
 * registers, and the loops that paint it.
 */
module VdpRender {
  import opened Octets
  import opened Bytes
  import opened VdpTables

  datatype Rgb = Rgb(red: Byte, green: Byte, blue: Byte)

  const BLACK := Rgb(0, 0, 0)

  type Palette = p: seq<Rgb> | |p| == 16 witness seq(16, _ => BLACK)

  /** What the caller adds to the captured state. */
  datatype Style = Style(palette: Palette, blink: bool)

  function Fetch(v: Vram, t: Table, index: nat): (b: nat)
    requires Usable(t) && index < 0x1_0000
    ensures b < 256
  {
    v[At(t, index)]
  }

  /** Bit `dot` of an octet, the leftmost being bit 0 of the picture. */
  predicate Bit(b: nat, dot: nat)
    requires dot < 8
  {
    b / [128, 64, 32, 16, 8, 4, 2, 1][dot] % 2 == 1
  }

  predicate Transparent(s: Shot) {
    !Flag(s.regs[8], 0x20)
  }

  function Foreground(s: Shot, p: Palette): Palette {
    if Transparent(s) && s.mode != 8 then p[0 := p[Reg(s.regs, 7) % 16]] else p
  }

  predicate Drawable(s: Shot) {
    && Supported(s.mode) && 1 <= s.height <= 256
    && (s.mode == 0 ==> TextColumns(s) == 40 || TextColumns(s) == 80)
    && (s.mode > 4 ==> PageBase(s).Some?)
  }

  function Width(s: Shot): (w: nat) {
    if s.mode == 0 then (if TextColumns(s) == 40 then 240 else 480)
    else if s.mode == 6 || s.mode == 7 then 512 else 256
  }

  // ------------------------------------------------------------ character modes

  function TextChar(v: Vram, s: Shot, row: nat, column: nat): (c: nat)
    requires row < 32 && column < 80
    ensures c < 256
  {
    if TextColumns(s) == 40 then Fetch(v, Names(s.regs, 12), 0xC00 + row * 40 + column)
    else Fetch(v, Names(s.regs, 12), row * 80 + column)
  }

  predicate Blinks(v: Vram, s: Shot, blink: bool, row: nat, column: nat)
    requires row < 32 && column < 80
  {
    TextColumns(s) == 80 && blink && Bit(Fetch(v, Colours(s.regs, 9), row * 10 + column / 8), column % 8)
  }

  function TextPixel(v: Vram, s: Shot, st: Style, x: nat, y: nat): Rgb
    requires Drawable(s) && s.mode == 0 && x < Width(s) && y < s.height
  {
    var bits := Fetch(v, Patterns(s.regs, 11), TextChar(v, s, y / 8, x / 6) * 8 + (y + Reg(s.regs, 23)) % 8);
    var colours := Reg(s.regs, if Blinks(v, s, st.blink, y / 8, x / 6) then 12 else 7);
    Foreground(s, st.palette)[if Bit(bits, x % 6) then colours / 16 else colours % 16]
  }

  /** The tile shown at a column of a line, before and after the horizontal scroll. */
  function TileChar(v: Vram, s: Shot, line: nat, column: nat): (c: nat)
    requires line < 256 && column < 32
    ensures c < 256
  {
    Fetch(v, Names(s.regs, 10), line / 8 * 32 + (column + Reg(s.regs, 26) % 32) % 32)
  }

  /** The pattern and the colour octet of a tile on one line. */
  function TileOctets(v: Vram, s: Shot, line: nat, code: nat): (o: (nat, nat))
    requires line < 256 && code < 256
    ensures o.0 < 256 && o.1 < 256
  {
    if s.mode == 1 then
      (Fetch(v, Patterns(s.regs, 11), code * 8 + line % 8), Fetch(v, Colours(s.regs, 6), code / 8))
    else if s.mode == 3 then
      (0xF0, Fetch(v, Patterns(s.regs, 11), code * 8 + line / 4 % 8))
    else
      var index := (line / 64 * 256 + code) * 8 + line % 8;
      (Fetch(v, Patterns(s.regs, 13), index), Fetch(v, Colours(s.regs, 13), index))
  }

  function TilePixel(v: Vram, s: Shot, st: Style, x: nat, y: nat): Rgb
    requires Drawable(s) && 1 <= s.mode <= 4 && x < Width(s) && y < s.height
  {
    var line := SourceLine(s, y);
    var octets := TileOctets(v, s, line, TileChar(v, s, line, x / 8));
    Foreground(s, st.palette)[if Bit(octets.0, x % 8) then octets.1 / 16 else octets.1 % 16]
  }

  // ------------------------------------------------------------ bitmap modes

  /** A two-, three- or five-bit component as eight bits. */
  function Scale(value: nat, maximum: nat): (b: Byte)
    requires maximum == 3 || maximum == 7 || maximum == 31
    requires value <= maximum
  {
    if maximum == 3 then value * 255 / 3 else if maximum == 7 then value * 255 / 7 else value * 255 / 31
  }

  function Rgb332(value: nat): Rgb {
    Rgb(Scale(value / 4 % 8, 7), Scale(value / 32 % 8, 7), Scale(value % 4, 3))
  }

  function Clamp5(value: int): (c: nat)
    ensures c <= 31
  {
    if value < 0 then 0 else if value > 31 then 31 else value
  }

  /** Division towards zero. */
  function TruncDiv(value: int, divisor: nat): int
    requires divisor > 0
  {
    if value >= 0 then value / divisor else -((-value) / divisor)
  }

  function YjkRgb(y: int, j: int, k: int): Rgb {
    Rgb(Scale(Clamp5(y + j), 31), Scale(Clamp5(y + k), 31), Scale(Clamp5(TruncDiv(5 * y - 2 * j - k + 2, 4)), 31))
  }

  /** A six-bit signed chroma value from the low bits of two octets. */
  function Chroma(low: nat, high: nat): int {
    low % 8 + high % 4 * 8 - high / 4 % 2 * 32
  }

  function YjkPixel(values: seq<nat>, palette: Palette, yae: bool, k: nat): Rgb
    requires |values| == 4 && k < 4 && forall b <- values :: b < 256
  {
    assert values[k] in values;
    if yae && values[k] / 8 % 2 == 1 then palette[values[k] / 16]
    else YjkRgb(values[k] / 8, Chroma(values[2], values[3]), Chroma(values[0], values[1]))
  }

  function Octet(v: Vram, s: Shot, base: nat, line: nat, k: nat): (b: nat)
    requires line < 256 && k < Stride(s.mode) && base + PageSize(s.mode) <= VRAM_SIZE
    ensures b < 256
  {
    LineFits(line, Stride(s.mode), k, PageSize(s.mode));
    v[base + line * Stride(s.mode) + k]
  }

  /** Pixels one octet of the bitmap stands for. */
  function PerOctet(mode: nat): nat {
    if mode == 6 then 4 else if mode == 5 || mode == 7 then 2 else 1
  }

  /** Pixel `sx` of a bitmap line, before the horizontal scroll. */
  function LinePixel(v: Vram, s: Shot, st: Style, base: nat, line: nat, sx: nat): Rgb
    requires 5 <= s.mode && Supported(s.mode) && line < 256 && sx < Width(s)
    requires base + PageSize(s.mode) <= VRAM_SIZE
  {
    var fg := Foreground(s, st.palette);
    if s.mode == 5 || s.mode == 7 then
      var value := Octet(v, s, base, line, sx / 2);
      fg[if sx % 2 == 0 then value / 16 else value % 16]
    else if s.mode == 6 then
      var index := Octet(v, s, base, line, sx / 4) / [64, 16, 4, 1][sx % 4] % 4;
      if index == 0 && Transparent(s)
      then st.palette[if sx % 2 == 0 then Reg(s.regs, 7) / 4 % 4 else Reg(s.regs, 7) % 4]
      else st.palette[index]
    else if s.mode == 8 then Rgb332(Octet(v, s, base, line, sx))
    else
      var g := sx / 4 * 4;
      YjkPixel([Octet(v, s, base, line, g), Octet(v, s, base, line, g + 1),
                Octet(v, s, base, line, g + 2), Octet(v, s, base, line, g + 3)],
               fg, s.mode == 10 || s.mode == 11, sx % 4)
  }

  function ScrollX(s: Shot): (x: nat)
    ensures 5 <= s.mode ==> x < Width(s)
  {
    Reg(s.regs, 26) % 32 * (if Width(s) == 512 then 16 else 8)
  }

  function BitmapPixel(v: Vram, s: Shot, st: Style, x: nat, y: nat): Rgb
    requires Drawable(s) && s.mode > 4 && x < Width(s) && y < s.height
  {
    LinePixel(v, s, st, PageBase(s).value, SourceLine(s, y), (x + ScrollX(s)) % Width(s))
  }

  function Background(v: Vram, s: Shot, st: Style, x: nat, y: nat): Rgb
    requires Drawable(s) && x < Width(s) && y < s.height
  {
    if s.mode == 0 then TextPixel(v, s, st, x, y)
    else if s.mode <= 4 then TilePixel(v, s, st, x, y)
    else BitmapPixel(v, s, st, x, y)
  }

  // ------------------------------------------------------------ painting the background

  method PaintText(v: Vram, s: Shot, st: Style, output: array2<Rgb>)
    requires Drawable(s) && s.mode == 0 && output.Length0 == s.height && output.Length1 == Width(s)
    modifies output
    ensures forall x: nat, y: nat | x < Width(s) && y < s.height :: output[y, x] == TextPixel(v, s, st, x, y)
  {
    hide Fetch, Bit, Foreground, TextColumns, Reg;
    var width := Width(s) / 6;
    var foreground := Foreground(s, st.palette);
    for y := 0 to s.height
      invariant forall j: nat, i: nat | i < Width(s) && j < y :: output[j, i] == TextPixel(v, s, st, i, j)
    {
      var row, glyphLine := y / 8, (y + Reg(s.regs, 23)) % 8;
      for column := 0 to width
        invariant forall j: nat, i: nat | i < Width(s) && j < y :: output[j, i] == TextPixel(v, s, st, i, j)
        invariant forall i: nat | i < column * 6 :: output[y, i] == TextPixel(v, s, st, i, y)
      {
        var code := TextChar(v, s, row, column);
        var bits := Fetch(v, Patterns(s.regs, 11), code * 8 + glyphLine);
        var colours := Reg(s.regs, if Blinks(v, s, st.blink, row, column) then 12 else 7);
        for dot := 0 to 6
          invariant forall j: nat, i: nat | i < Width(s) && j < y :: output[j, i] == TextPixel(v, s, st, i, j)
          invariant forall i: nat | i < column * 6 + dot :: output[y, i] == TextPixel(v, s, st, i, y)
        {
          assert (column * 6 + dot) / 6 == column && (column * 6 + dot) % 6 == dot;
          output[y, column * 6 + dot] := foreground[if Bit(bits, dot) then colours / 16 else colours % 16];
        }
      }
    }
  }

  method PaintTiles(v: Vram, s: Shot, st: Style, output: array2<Rgb>)
    requires Drawable(s) && 1 <= s.mode <= 4 && output.Length0 == s.height && output.Length1 == Width(s)
    modifies output
    ensures forall x: nat, y: nat | x < Width(s) && y < s.height :: output[y, x] == TilePixel(v, s, st, x, y)
  {
    hide Fetch, Bit, Foreground, TileOctets, TileChar;
    var foreground := Foreground(s, st.palette);
    for y := 0 to s.height
      invariant forall j: nat, i: nat | i < 256 && j < y :: output[j, i] == TilePixel(v, s, st, i, j)
    {
      var line := SourceLine(s, y);
      for column := 0 to 32
        invariant forall j: nat, i: nat | i < 256 && j < y :: output[j, i] == TilePixel(v, s, st, i, j)
        invariant forall i: nat | i < column * 8 :: output[y, i] == TilePixel(v, s, st, i, y)
      {
        var octets := TileOctets(v, s, line, TileChar(v, s, line, column));
        for dot := 0 to 8
          invariant forall j: nat, i: nat | i < 256 && j < y :: output[j, i] == TilePixel(v, s, st, i, j)
          invariant forall i: nat | i < column * 8 + dot :: output[y, i] == TilePixel(v, s, st, i, y)
        {
          assert (column * 8 + dot) / 8 == column && (column * 8 + dot) % 8 == dot;
          output[y, column * 8 + dot] := foreground[if Bit(octets.0, dot) then octets.1 / 16 else octets.1 % 16];
        }
      }
    }
  }

  /** One line of the bitmap, octet by octet (or in groups of four for YJK). */
  method DecodeLine(v: Vram, s: Shot, st: Style, base: nat, line: nat) returns (pixels: seq<Rgb>)
    requires 5 <= s.mode && Supported(s.mode) && line < 256 && base + PageSize(s.mode) <= VRAM_SIZE
    ensures |pixels| == Width(s)
    ensures forall sx: nat | sx < Width(s) :: pixels[sx] == LinePixel(v, s, st, base, line, sx)
  {
    hide Octet, Foreground, YjkPixel, Rgb332, Transparent;
    pixels := [];
    var fg := Foreground(s, st.palette);
    if s.mode >= 10 {
      for group := 0 to 64
        invariant |pixels| == group * 4
        invariant forall sx: nat | sx < group * 4 :: pixels[sx] == LinePixel(v, s, st, base, line, sx)
      {
        var g := group * 4;
        var values := [Octet(v, s, base, line, g), Octet(v, s, base, line, g + 1),
                       Octet(v, s, base, line, g + 2), Octet(v, s, base, line, g + 3)];
        var yae := s.mode == 10 || s.mode == 11;
        for k := 0 to 4
          invariant |pixels| == g + k
          invariant forall sx: nat | sx < g + k :: pixels[sx] == LinePixel(v, s, st, base, line, sx)
        {
          assert (g + k) / 4 == group && (g + k) % 4 == k;
          pixels := pixels + [YjkPixel(values, fg, yae, k)];
        }
      }
    } else {
      var per := PerOctet(s.mode);
      for k := 0 to Stride(s.mode)
        invariant |pixels| == k * per
        invariant forall sx: nat | sx < k * per :: pixels[sx] == LinePixel(v, s, st, base, line, sx)
      {
        for sub := 0 to per
          invariant |pixels| == k * per + sub
          invariant forall sx: nat | sx < k * per + sub :: pixels[sx] == LinePixel(v, s, st, base, line, sx)
        {
          pixels := pixels + [OctetPixel(v, s, st, base, line, k, sub)];
        }
      }
    }
  }

  /** Pixel `sub` of octet `k`. */
  function OctetPixel(v: Vram, s: Shot, st: Style, base: nat, line: nat, k: nat, sub: nat): (c: Rgb)
    requires 5 <= s.mode <= 8 && line < 256 && base + PageSize(s.mode) <= VRAM_SIZE
    requires k < Stride(s.mode) && sub < PerOctet(s.mode)
    ensures c == LinePixel(v, s, st, base, line, k * PerOctet(s.mode) + sub)
  {
    var value := Octet(v, s, base, line, k);
    if s.mode == 5 || s.mode == 7 then
      Foreground(s, st.palette)[if sub == 0 then value / 16 else value % 16]
    else if s.mode == 6 then
      assert (k * 4 + sub) / 4 == k && (k * 4 + sub) % 4 == sub;
      var index := value / [64, 16, 4, 1][sub] % 4;
      if index == 0 && Transparent(s)
      then st.palette[if sub % 2 == 0 then Reg(s.regs, 7) / 4 % 4 else Reg(s.regs, 7) % 4]
      else st.palette[index]
    else Rgb332(value)
  }

  lemma Rotated(line: seq<Rgb>, shift: nat, x: nat)
    requires shift < |line| && x < |line|
    ensures (line[shift..] + line[..shift])[x] == line[(x + shift) % |line|]
  {
    if x + shift < |line| {
      assert (x + shift) % |line| == x + shift;
    } else {
      assert (x + shift) % |line| == x + shift - |line|;
    }
  }

  /** One line of the picture: the memory line, rotated by the scroll. */
  method ScrolledLine(v: Vram, s: Shot, st: Style, y: nat) returns (shown: seq<Rgb>)
    requires Drawable(s) && s.mode > 4 && y < s.height
    ensures |shown| == Width(s)
    ensures forall x: nat | x < Width(s) :: shown[x] == BitmapPixel(v, s, st, x, y)
  {
    hide LinePixel, ScrollX, PageBase, SourceLine, Width;
    var scroll := ScrollX(s);
    var line := DecodeLine(v, s, st, PageBase(s).value, SourceLine(s, y));
    shown := line[scroll..] + line[..scroll];
    forall x: nat | x < Width(s) ensures shown[x] == BitmapPixel(v, s, st, x, y) {
      Rotated(line, scroll, x);
    }
  }

  method PaintBitmap(v: Vram, s: Shot, st: Style, output: array2<Rgb>)
    requires Drawable(s) && s.mode > 4 && output.Length0 == s.height && output.Length1 == Width(s)
    modifies output
    ensures forall x: nat, y: nat | x < Width(s) && y < s.height :: output[y, x] == BitmapPixel(v, s, st, x, y)
  {
    hide BitmapPixel;
    for y := 0 to s.height
      invariant forall j: nat, i: nat | i < Width(s) && j < y :: output[j, i] == BitmapPixel(v, s, st, i, j)
    {
      var shown := ScrolledLine(v, s, st, y);
      for x := 0 to Width(s)
        invariant forall j: nat, i: nat | i < Width(s) && j < y :: output[j, i] == BitmapPixel(v, s, st, i, j)
        invariant forall i: nat | i < x :: output[y, i] == BitmapPixel(v, s, st, i, y)
      {
        output[y, x] := shown[x];
      }
    }
  }
}

/**
 * Sprites.  The program paints them from the lowest priority to the highest, each over the
 * ones before; the picture is the same as asking, pixel by pixel, for the first sprite that
 * shows there.
 */
module VdpSprites {
  import opened Octets
  import opened Bytes
  import opened VdpTables
  import opened VdpRender

  datatype SpriteRecord = SpriteRecord(number: nat, y: nat, x: nat, pattern: nat, colour: nat)

  predicate ValidRecord(r: SpriteRecord) {
    r.number < 32 && r.y < 256 && r.x < 256 && r.pattern < 256 && r.colour < 256
  }

  /** A sprite on one scanline: its left edge, its dots, and its colour with the CC bit. */
  datatype Visible = Visible(x: int, dots: seq<bool>, colour: nat, cc: bool)

  predicate ValidVisible(vs: seq<Visible>) {
    forall w <- vs :: w.colour < 16
  }

  function Terminator(s: Shot): nat {
    if SpriteMode(s.mode) == 1 then 208 else 216
  }

  function Limit(s: Shot): nat {
    if SpriteMode(s.mode) == 1 then 4 else 8
  }

  function Magnification(s: Shot): (m: nat)
    ensures m == 1 || m == 2
  {
    if Flag(s.regs[1], 1) then 2 else 1
  }

  function Size(s: Shot): (n: nat)
    ensures n == 8 || n == 16
  {
    if Flag(s.regs[1], 2) then 16 else 8
  }

  function Attribute(v: Vram, s: Shot, number: nat, field: nat): (b: nat)
    requires number < 32 && field < 4
    ensures b < 256
  {
    Fetch(v, SpriteAttributes(s.regs, SpriteMode(s.mode)),
          (if SpriteMode(s.mode) == 1 then 0 else 512) + number * 4 + field)
  }

  function RecordAt(v: Vram, s: Shot, number: nat): (r: SpriteRecord)
    requires number < 32
    ensures ValidRecord(r)
  {
    SpriteRecord(number, Attribute(v, s, number, 0), Attribute(v, s, number, 1), Attribute(v, s, number, 2),
                 Attribute(v, s, number, 3))
  }

  /** The attribute records up to the terminator. */
  function Records(v: Vram, s: Shot, from: nat): (rs: seq<SpriteRecord>)
    requires from <= 32
    ensures forall r <- rs :: ValidRecord(r)
    decreases 32 - from
  {
    if from == 32 || Attribute(v, s, from, 0) == Terminator(s) then []
    else [RecordAt(v, s, from)] + Records(v, s, from + 1)
  }

  /** Scanlines below the top of the sprite; R#23 scrolls sprites with the screen. */
  function Relative(s: Shot, r: SpriteRecord, y: nat): (n: nat)
    ensures n < 256
  {
    ((y + Reg(s.regs, 23)) - (r.y + 1) % 256) % 256
  }

  predicate OnLine(s: Shot, r: SpriteRecord, y: nat) {
    Relative(s, r, y) < Size(s) * Magnification(s)
  }

  function PatternNumber(s: Shot, pattern: nat): (n: nat)
    requires pattern < 256
    ensures n < 256 && (Size(s) == 16 ==> n <= 252)
  {
    if Size(s) == 16 then pattern / 4 * 4 else pattern
  }

  function LineAttribute(v: Vram, s: Shot, r: SpriteRecord, row: nat): (b: nat)
    requires ValidRecord(r) && row < 16
    ensures b < 256
  {
    if SpriteMode(s.mode) == 1 then r.colour
    else Fetch(v, SpriteAttributes(s.regs, SpriteMode(s.mode)), r.number * 16 + row)
  }

  function PatternOctet(v: Vram, s: Shot, pattern: nat, row: nat, right: bool): (b: nat)
    requires pattern < 256 && row < Size(s) && (right ==> Size(s) == 16)
    ensures b < 256
  {
    Fetch(v, SpritePatterns(s.regs), PatternNumber(s, pattern) * 8 + row + if right then 16 else 0)
  }

  function Dot(v: Vram, s: Shot, pattern: nat, row: nat, k: nat): bool
    requires pattern < 256 && row < Size(s) && k < Size(s)
  {
    Bit(PatternOctet(v, s, pattern, row, k >= 8), k % 8)
  }

  function Dots(v: Vram, s: Shot, pattern: nat, row: nat): seq<bool>
    requires pattern < 256 && row < Size(s)
  {
    seq(Size(s) * Magnification(s),
        i requires 0 <= i < Size(s) * Magnification(s) => Dot(v, s, pattern, row, i / Magnification(s)))
  }

  function Show(v: Vram, s: Shot, r: SpriteRecord, y: nat): (w: Visible)
    requires ValidRecord(r) && OnLine(s, r, y)
    ensures w.colour < 16
  {
    var row := Relative(s, r, y) / Magnification(s);
    var attribute := LineAttribute(v, s, r, row);
    Visible(r.x - (if attribute >= 128 then 32 else 0), Dots(v, s, r.pattern, row), attribute % 16,
            attribute / 64 % 2 == 1)
  }

  /** The first sprites that touch a scanline, as many as the hardware shows. */
  function VisibleSprites(v: Vram, s: Shot, rs: seq<SpriteRecord>, y: nat, room: nat): (vs: seq<Visible>)
    requires forall r <- rs :: ValidRecord(r)
    ensures |vs| <= room && ValidVisible(vs)
    decreases |rs|
  {
    if rs == [] || room == 0 then []
    else
      assert rs[0] in rs && forall r <- rs[1..] :: r in rs;
      if !OnLine(s, rs[0], y) then VisibleSprites(v, s, rs[1..], y, room)
      else [Show(v, s, rs[0], y)] + VisibleSprites(v, s, rs[1..], y, room - 1)
  }

  // ------------------------------------------------------------ one pixel

  predicate DotAt(w: Visible, x: int) {
    0 <= x - w.x < |w.dots| && w.dots[x - w.x]
  }

  function Or4(a: nat, b: nat): (c: nat)
    requires a < 16 && b < 16
    ensures c < 16
  {
    (if a / 8 == 1 || b / 8 == 1 then 8 else 0) + (if a / 4 % 2 == 1 || b / 4 % 2 == 1 then 4 else 0)
    + (if a / 2 % 2 == 1 || b / 2 % 2 == 1 then 2 else 0) + (if a % 2 == 1 || b % 2 == 1 then 1 else 0)
  }

  /** The colour of a sprite and of the CC sprites that follow it directly. */
  function Mixed(vs: seq<Visible>, follower: nat, x: int, colour: nat): (c: nat)
    requires ValidVisible(vs) && follower <= |vs| && colour < 16
    ensures c < 16
    decreases |vs| - follower
  {
    if follower == |vs| || !vs[follower].cc then colour
    else
      assert vs[follower] in vs;
      Mixed(vs, follower + 1, x, if DotAt(vs[follower], x) then Or4(colour, vs[follower].colour) else colour)
  }

  /** Colour number a visible sprite puts at a sprite coordinate, if any. */
  function ColourAt(s: Shot, vs: seq<Visible>, k: nat, x: int): (c: Option<nat>)
    requires ValidVisible(vs) && k < |vs|
    ensures c.Some? ==> c.value < 16
  {
    assert vs[k] in vs;
    if !DotAt(vs[k], x) || (SpriteMode(s.mode) == 2 && vs[k].cc) then None
    else
      var colour := if SpriteMode(s.mode) == 1 then vs[k].colour else Mixed(vs, k + 1, x, vs[k].colour);
      if colour == 0 && Transparent(s) then None else Some(colour)
  }

  /** The sprite of highest priority that shows at a coordinate, from number `k` on. */
  function First(s: Shot, vs: seq<Visible>, k: nat, x: int): (c: Option<nat>)
    requires ValidVisible(vs) && k <= |vs|
    ensures c.Some? ==> c.value < 16
    decreases |vs| - k
  {
    if k == |vs| then None
    else if ColourAt(s, vs, k, x).Some? then ColourAt(s, vs, k, x)
    else First(s, vs, k + 1, x)
  }

  const SCREEN8_SPRITES: Palette := [
    Grb(0, 0, 0), Grb(0, 0, 2), Grb(0, 3, 0), Grb(0, 3, 2), Grb(3, 0, 0), Grb(3, 0, 2), Grb(3, 3, 0),
    Grb(3, 3, 2), Grb(4, 7, 2), Grb(0, 0, 7), Grb(0, 7, 0), Grb(0, 7, 7), Grb(7, 0, 0), Grb(7, 0, 7), Grb(7, 7, 0),
    Grb(7, 7, 7)]

  /** The three octal digits of a palette word, as the table lists them. */
  function Grb(high: nat, middle: nat, low: nat): Rgb
    requires high < 8 && middle < 8 && low < 8
  {
    Rgb(Scale(middle, 7), Scale(high, 7), Scale(low, 7))
  }

  /** Host pixels per sprite pixel. */
  function XScale(mode: nat): (n: nat)
    ensures n == 1 || n == 2
  {
    if mode == 6 || mode == 7 then 2 else 1
  }

  function Paint(s: Shot, st: Style, colour: nat, sub: nat): Rgb
    requires colour < 16
  {
    if s.mode == 6 then st.palette[if sub == 0 then colour / 4 else colour % 4]
    else if s.mode == 8 then SCREEN8_SPRITES[colour]
    else st.palette[colour]
  }

  /** What the sprites put at a pixel of the picture. */
  function SpritePixel(v: Vram, s: Shot, st: Style, x: nat, y: nat): Option<Rgb> {
    var vs := VisibleSprites(v, s, Records(v, s, 0), y, Limit(s));
    match First(s, vs, 0, x / XScale(s.mode))
    case None => None
    case Some(colour) => Some(Paint(s, st, colour, x % XScale(s.mode)))
  }

  // ------------------------------------------------------------ painting

  method CollectRecords(v: Vram, s: Shot) returns (rs: seq<SpriteRecord>)
    ensures rs == Records(v, s, 0)
  {
    rs := [];
    for number := 0 to 32
      invariant rs + Records(v, s, number) == Records(v, s, 0)
    {
      var y := Attribute(v, s, number, 0);
      if y == Terminator(s) {
        assert Records(v, s, number) == [];
        return;
      }
      var r := RecordAt(v, s, number);
      assert rs + Records(v, s, number) == (rs + [r]) + Records(v, s, number + 1);
      rs := rs + [r];
    }
  }

  method CollectVisible(v: Vram, s: Shot, rs: seq<SpriteRecord>, y: nat) returns (vs: seq<Visible>)
    requires forall r <- rs :: ValidRecord(r)
    ensures vs == VisibleSprites(v, s, rs, y, Limit(s))
  {
    hide Show, OnLine;
    vs := [];
    assert rs[0..] == rs;
    for k := 0 to |rs|
      invariant |vs| < Limit(s)
      invariant forall r <- rs[k..] :: r in rs
      invariant vs + VisibleSprites(v, s, rs[k..], y, Limit(s) - |vs|) == VisibleSprites(v, s, rs, y, Limit(s))
    {
      ghost var rest := rs[k..];
      assert rest[0] == rs[k] && rest[1..] == rs[k + 1..];
      assert forall r <- rest[1..] :: r in rest;
      if OnLine(s, rs[k], y) {
        var shown := Show(v, s, rs[k], y);
        assert vs + ([shown] + VisibleSprites(v, s, rest[1..], y, Limit(s) - |vs| - 1))
            == (vs + [shown]) + VisibleSprites(v, s, rest[1..], y, Limit(s) - |vs| - 1);
        vs := vs + [shown];
        if |vs| == Limit(s) {
          return;
        }
      }
    }
    assert rs[|rs|..] == [];
  }

  /** The picture below, or what the sprites from `k` on put over it. */
  ghost predicate LinePainted(s: Shot, st: Style, vs: seq<Visible>, k: nat, below: seq<Rgb>, line: seq<Rgb>)
    requires ValidVisible(vs) && k <= |vs|
  {
    && |line| == |below|
    && forall x | 0 <= x < |line| ::
         line[x] == match First(s, vs, k, x / XScale(s.mode))
                    case None => below[x]
                    case Some(colour) => Paint(s, st, colour, x % XScale(s.mode))
  }

  /** Paints the visible sprites of one scanline over it, the last one first. */
  method PaintLine(s: Shot, st: Style, vs: seq<Visible>, below: seq<Rgb>) returns (line: seq<Rgb>)
    requires ValidVisible(vs)
    ensures LinePainted(s, st, vs, 0, below, line)
  {
    hide Mixed, Paint;
    line := below;
    var k: nat := |vs|;
    while k > 0
      invariant k <= |vs| && LinePainted(s, st, vs, k, below, line)
    {
      k := k - 1;
      line := PaintSprite(s, st, vs, k, line);
    }
  }

  /** One sprite over the line: its dots from left to right, each dot one or two pixels wide. */
  method PaintSprite(s: Shot, st: Style, vs: seq<Visible>, k: nat, before: seq<Rgb>) returns (line: seq<Rgb>)
    requires ValidVisible(vs) && k < |vs|
    ensures |line| == |before|
    ensures forall x | 0 <= x < |line| ::
      line[x] == match ColourAt(s, vs, k, x / XScale(s.mode))
                 case None => before[x]
                 case Some(colour) => Paint(s, st, colour, x % XScale(s.mode))
  {
    hide Mixed, Paint;
    line := before;
    var scale := XScale(s.mode);
    var w := vs[k];
    for dot := 0 to |w.dots|
      invariant |line| == |before|
      invariant forall x | 0 <= x < |line| ::
        line[x] == if x / scale - w.x < dot && ColourAt(s, vs, k, x / scale).Some?
                   then Paint(s, st, ColourAt(s, vs, k, x / scale).value, x % scale)
                   else before[x]
    {
      var colour := ColourAt(s, vs, k, w.x + dot);
      if colour.Some? {
        for sub := 0 to scale
          invariant |line| == |before|
          invariant forall x | 0 <= x < |line| ::
            line[x] == if (x / scale - w.x < dot || (x / scale - w.x == dot && x % scale < sub))
                          && ColourAt(s, vs, k, x / scale).Some?
                       then Paint(s, st, ColourAt(s, vs, k, x / scale).value, x % scale)
                       else before[x]
        {
          var x := (w.x + dot) * scale + sub;
          if 0 <= x < |line| {
            assert x / scale == w.x + dot && x % scale == sub;
            line := line[x := Paint(s, st, colour.value, sub)];
          }
        }
      }
    }
  }

  method CompositeSprites(v: Vram, s: Shot, st: Style, output: array2<Rgb>)
    requires Drawable(s) && output.Length0 == s.height && output.Length1 == Width(s)
    modifies output
    ensures forall x: nat, y: nat | x < Width(s) && y < s.height ::
      output[y, x] == if DrawsSprites(s) && SpritePixel(v, s, st, x, y).Some?
                      then SpritePixel(v, s, st, x, y).value
                      else old(output[y, x])
  {
    hide VisibleSprites, Records, First, Paint;
    if !DrawsSprites(s) {
      return;
    }
    var rs := CollectRecords(v, s);
    for y := 0 to s.height
      invariant forall j: nat, i: nat | i < Width(s) && y <= j < s.height :: output[j, i] == old(output[j, i])
      invariant forall j: nat, i: nat | i < Width(s) && j < y ::
        output[j, i] == if SpritePixel(v, s, st, i, j).Some? then SpritePixel(v, s, st, i, j).value
                        else old(output[j, i])
    {
      var vs := CollectVisible(v, s, rs, y);
      var below := seq(Width(s), i requires 0 <= i < Width(s) reads output => output[y, i]);
      var line := PaintLine(s, st, vs, below);
      for x := 0 to Width(s)
        invariant forall j: nat, i: nat | i < Width(s) && y < j < s.height :: output[j, i] == old(output[j, i])
        invariant forall j: nat, i: nat | i < Width(s) && j < y ::
          output[j, i] == if SpritePixel(v, s, st, i, j).Some? then SpritePixel(v, s, st, i, j).value
                          else old(output[j, i])
        invariant forall i: nat | i < x :: output[y, i] == line[i]
      {
        output[y, x] := line[x];
      }
    }
  }
}

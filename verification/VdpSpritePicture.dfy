/**
 * Sprites told from the other side: a scene of sprites is stored in the attribute, colour and
 * pattern tables, and the picture shows, at each dot, the first sprite of the scene that has one
 * there.
 */
module VdpSpritePicture {
  import opened Octets
  import opened Bytes
  import opened VdpTables
  import opened VdpRender
  import opened VdpSprites
  import opened SparseCapture
  import opened VdpPicture

  /** Colour number, two unused bits, the bit that joins a sprite to the one before, and early clock. */
  datatype Ink = Ink(colour: nat, spare: nat, cc: bool, early: bool)

  /** The ink is given for each line of the pattern. */
  datatype Sprite = Sprite(y: nat, x: nat, pattern: nat, ink: nat -> Ink)

  datatype Scene = Scene(sprites: seq<Sprite>, shape: (nat, nat, nat) -> bool)

  // ------------------------------------------------------------ how it is stored

  predicate InkStored(octet: nat, ink: Ink) {
    && ink.colour < 16 && ink.spare < 4
    && octet == (if ink.early then 128 else 0) + (if ink.cc then 64 else 0) + 16 * ink.spare + ink.colour
  }

  /** SCREEN 1 to 3 have sprites of one colour; the others a colour for each line. */
  function Kind(s: Shot): nat {
    if s.mode <= 3 then 1 else 2
  }

  /** Field `f` of entry `k`: y, x, pattern, and on SCREEN 1 to 3 the ink. */
  function FieldPlace(s: Shot, k: nat, f: nat): (place: nat)
    requires k < 32 && f < 4
    ensures place < VRAM_SIZE
  {
    AttributePlace(s.regs, Kind(s), (if s.mode <= 3 then 0 else 512) + 4 * k + f)
  }

  function EndMark(s: Shot): nat {
    if s.mode <= 3 then 208 else 216
  }

  predicate SpriteStored(v: Vram, s: Shot, k: nat, p: Sprite)
    requires k < 32
  {
    && p.y < 256 && p.y != EndMark(s) && p.x < 256 && p.pattern < 256
    && v[FieldPlace(s, k, 0)] == p.y && v[FieldPlace(s, k, 1)] == p.x && v[FieldPlace(s, k, 2)] == p.pattern
    && forall row: nat | row < 16 ::
         InkStored(v[if s.mode <= 3 then FieldPlace(s, k, 3) else AttributePlace(s.regs, 2, 16 * k + row)], p.ink(row))
  }

  predicate ShapeLineStored(v: Vram, s: Shot, t: Scene, pattern: nat, row: nat)
    requires pattern < 256 && row < 8
  {
    v[ShapePlace(s.regs, pattern * 8 + row)] == Dots8((dot: nat) => t.shape(pattern, row, dot))
  }

  predicate SceneStored(v: Vram, s: Shot, t: Scene) {
    && |t.sprites| <= 32
    && (forall k: nat | k < |t.sprites| :: SpriteStored(v, s, k, t.sprites[k]))
    && (|t.sprites| < 32 ==> v[FieldPlace(s, |t.sprites|, 0)] == EndMark(s))
    && forall pattern: nat, row: nat | pattern < 256 && row < 8 :: ShapeLineStored(v, s, t, pattern, row)
  }

  // ------------------------------------------------------------ what is to be seen

  /** Dots on a side of a pattern, and of the screen. */
  function Side(s: Shot): (n: nat)
    ensures n == 8 || n == 16
  {
    if Reg(s.regs, 1) / 2 % 2 == 1 then 16 else 8
  }

  function Zoom(s: Shot): (n: nat)
    ensures n == 1 || n == 2
  {
    if Reg(s.regs, 1) % 2 == 1 then 2 else 1
  }

  /** Lines from the top of a sprite, which stands one line below its y and scrolls with the screen. */
  function Depth(s: Shot, p: Sprite, y: nat): nat {
    (y + Reg(s.regs, 23) + 255 * (p.y + 1)) % 256
  }

  predicate Touches(s: Shot, p: Sprite, y: nat) {
    Depth(s, p, y) < Side(s) * Zoom(s)
  }

  /** The sprites that touch a line, in the order of the table. */
  function Touching(s: Shot, ps: seq<Sprite>, y: nat): (seen: seq<Sprite>)
    ensures forall p <- seen :: p in ps && Touches(s, p, y)
  {
    if ps == [] then []
    else (if Touches(s, ps[0], y) then [ps[0]] else []) + Touching(s, ps[1..], y)
  }

  /** Of these the hardware shows the first four, or eight. */
  function Seen(s: Shot, t: Scene, y: nat): (seen: seq<Sprite>)
    ensures forall p <- seen :: p in t.sprites && Touches(s, p, y)
  {
    var all, most := Touching(s, t.sprites, y), if s.mode <= 3 then 4 else 8;
    if |all| <= most then all else all[..most]
  }

  function InkAt(s: Shot, p: Sprite, y: nat): Ink {
    p.ink(Depth(s, p, y) / Zoom(s))
  }

  /** The sprite has a dot at this place; early clock moves it to the left. */
  predicate Lit(s: Shot, t: Scene, p: Sprite, x: int, y: nat) {
    var i := x - p.x + if InkAt(s, p, y).early then 32 else 0;
    && 0 <= i < Side(s) * Zoom(s)
    && ShapeDot(s, t, p.pattern, Depth(s, p, y) / Zoom(s), i / Zoom(s))
  }

  /** A dot of the pattern; one of sixteen dots a side consists of two columns of two. */
  predicate ShapeDot(s: Shot, t: Scene, pattern: nat, row: nat, dot: nat) {
    if Side(s) == 8 then t.shape(pattern, row, dot)
    else t.shape(pattern / 4 * 4 + row / 8 + 2 * (dot / 8), row % 8, dot % 8)
  }

  /** Sprite `m` is `k`, or is joined to it by it and every one between having the CC bit. */
  ghost predicate Joined(s: Shot, seen: seq<Sprite>, k: nat, m: nat, y: nat) {
    k <= m < |seen| && forall j | k < j <= m :: InkAt(s, seen[j], y).cc
  }

  predicate HasBit(colour: nat, weight: nat)
    requires weight > 0
  {
    colour / weight % 2 == 1
  }

  /** Some sprite joined to `k` has a dot here, and this bit in its colour. */
  ghost predicate Mixes(s: Shot, t: Scene, seen: seq<Sprite>, k: nat, x: int, y: nat, weight: nat)
    requires weight > 0
  {
    exists m: nat :: Joined(s, seen, k, m, y) && Lit(s, t, seen[m], x, y)
                     && HasBit(InkAt(s, seen[m], y).colour, weight)
  }

  /** The colour number of sprite `k` where it has a dot: its own, or with those joined to it by OR. */
  ghost function Blend(s: Shot, t: Scene, seen: seq<Sprite>, k: nat, x: int, y: nat): (c: nat)
    requires k < |seen|
  {
    if s.mode <= 3 then InkAt(s, seen[k], y).colour
    else (if Mixes(s, t, seen, k, x, y, 8) then 8 else 0) + (if Mixes(s, t, seen, k, x, y, 4) then 4 else 0)
         + (if Mixes(s, t, seen, k, x, y, 2) then 2 else 0) + (if Mixes(s, t, seen, k, x, y, 1) then 1 else 0)
  }

  /** The `k`-th sprite on the line has something to show at a dot. */
  ghost predicate Shows(s: Shot, t: Scene, seen: seq<Sprite>, k: nat, x: int, y: nat): (b: bool)
    ensures b ==> k < |seen|
  {
    && k < |seen| && Lit(s, t, seen[k], x, y) && (s.mode > 3 ==> !InkAt(s, seen[k], y).cc)
    && (Blend(s, t, seen, k, x, y) == 0 ==> Reg(s.regs, 8) / 32 % 2 == 1)
  }

  /** Colours are the palette's, on SCREEN 8 fixed ones; on SCREEN 6 a sprite dot is two pixels. */
  function Painted(s: Shot, st: Style, colour: nat, x: nat): Rgb
    requires colour < 16
  {
    if s.mode == 6 then st.palette[if x % 2 == 0 then colour / 4 else colour % 4]
    else if s.mode == 8 then
      [Rgb(0, 0, 0), Rgb(0, 0, 72), Rgb(109, 0, 0), Rgb(109, 0, 72),
       Rgb(0, 109, 0), Rgb(0, 109, 72), Rgb(109, 109, 0), Rgb(109, 109, 72),
       Rgb(255, 145, 72), Rgb(0, 0, 255), Rgb(255, 0, 0), Rgb(255, 0, 255),
       Rgb(0, 255, 0), Rgb(0, 255, 255), Rgb(255, 255, 0), Rgb(255, 255, 255)][colour]
    else st.palette[colour]
  }

  // ------------------------------------------------------------ from records to the scene

  /** A record and a sprite of the scene. */
  predicate Paired(v: Vram, s: Shot, r: SpriteRecord, p: Sprite) {
    && ValidRecord(r) && r.y == p.y && r.x == p.x && r.pattern == p.pattern
    && forall row: nat | row < 16 :: InkStored(LineAttribute(v, s, r, row), p.ink(row))
  }

  lemma FieldStored(v: Vram, s: Shot, k: nat, f: nat)
    requires s.mode != 0 && k < 32 && f < 4
    ensures Attribute(v, s, k, f) == v[FieldPlace(s, k, f)]
  {
    hide And, TableAddr, SpriteAttributes, AttributePlace;
    AttributePlaces(s.regs, SpriteMode(s.mode), (if s.mode <= 3 then 0 else 512) + 4 * k + f);
  }

  lemma RecordIsPaired(v: Vram, s: Shot, k: nat, p: Sprite)
    requires s.mode != 0 && k < 32 && SpriteStored(v, s, k, p)
    ensures Paired(v, s, RecordAt(v, s, k), p)
  {
    hide And, TableAddr, SpriteAttributes, AttributePlace, InkStored, Attribute;
    FieldStored(v, s, k, 0);
    FieldStored(v, s, k, 1);
    FieldStored(v, s, k, 2);
    FieldStored(v, s, k, 3);
    forall row: nat | row < 16 ensures InkStored(LineAttribute(v, s, RecordAt(v, s, k), row), p.ink(row)) {
      if s.mode > 3 {
        AttributePlaces(s.regs, 2, 16 * k + row);
      }
    }
  }

  lemma {:induction false} RecordsArePaired(v: Vram, s: Shot, t: Scene, k: nat)
    requires s.mode != 0 && SceneStored(v, s, t) && k <= |t.sprites|
    ensures |Records(v, s, k)| == |t.sprites| - k
    ensures forall i | 0 <= i < |t.sprites| - k :: Paired(v, s, Records(v, s, k)[i], t.sprites[k + i])
    decreases |t.sprites| - k
  {
    hide Paired, FieldPlace, ShapeLineStored, RecordAt;
    if k < 32 {
      FieldStored(v, s, k, 0);
    }
    if k < |t.sprites| {
      assert SpriteStored(v, s, k, t.sprites[k]);
      RecordIsPaired(v, s, k, t.sprites[k]);
      RecordsArePaired(v, s, t, k + 1);
      assert Records(v, s, k) == [RecordAt(v, s, k)] + Records(v, s, k + 1);
    }
  }

  lemma SameLine(v: Vram, s: Shot, r: SpriteRecord, p: Sprite, y: nat)
    requires Paired(v, s, r, p)
    ensures Relative(s, r, y) == Depth(s, p, y) && (OnLine(s, r, y) <==> Touches(s, p, y))
    ensures Size(s) == Side(s) && Magnification(s) == Zoom(s)
  {
    hide InkStored, LineAttribute;
    Wrapped(y + Reg(s.regs, 23), p.y + 1);
  }

  lemma Wrapped(a: nat, b: nat)
    ensures (a - b % 256) % 256 == (a + 255 * b) % 256
  {
    var q := b / 256;
    assert b == 256 * q + b % 256;
    assert a + 255 * b == (a - b % 256) + 256 * (b - q);
    Turns(a - b % 256, b - q);
  }

  lemma Turns(a: int, n: int)
    ensures (a + 256 * n) % 256 == a % 256
  {
  }

  /** A visible sprite is the one of the scene. */
  ghost predicate Depicts(w: Visible, s: Shot, t: Scene, p: Sprite, y: nat) {
    && w.colour == InkAt(s, p, y).colour < 16 && w.cc == InkAt(s, p, y).cc
    && w.x == p.x - (if InkAt(s, p, y).early then 32 else 0)
    && forall x: int :: DotAt(w, x) <==> Lit(s, t, p, x, y)
  }

  lemma InkFields(octet: nat, ink: Ink)
    requires InkStored(octet, ink)
    ensures octet % 16 == ink.colour && (octet / 64 % 2 == 1 <==> ink.cc) && (octet >= 128 <==> ink.early)
  {
    assert octet / 64 == (if ink.early then 2 else 0) + (if ink.cc then 1 else 0);
  }

  /** A dot of a pattern, from whichever of its quarters. */
  lemma ShapeIsStored(v: Vram, s: Shot, t: Scene, pattern: nat, row: nat, dot: nat)
    requires SceneStored(v, s, t) && pattern < 256 && row < Size(s) && dot < Size(s)
    ensures Dot(v, s, pattern, row, dot)
        <==> if Size(s) == 8 then t.shape(pattern, row, dot)
             else t.shape(pattern / 4 * 4 + row / 8 + 2 * (dot / 8), row % 8, dot % 8)
  {
    hide And, TableAddr, SpritePatterns, ShapePlace, Dots8, Bit, SpriteStored, FieldPlace;
    var part := if Size(s) == 8 then pattern else pattern / 4 * 4 + row / 8 + 2 * (dot / 8);
    var line := row % 8;
    var place := part * 8 + line;
    assert place == PatternNumber(s, pattern) * 8 + row + if dot >= 8 then 16 else 0;
    PatternPlaces(s.regs, place);
    assert ShapeLineStored(v, s, t, part, line);
    DotsAreBits((k: nat) => t.shape(part, line, k), dot % 8);
  }

  lemma DotsAreShape(v: Vram, s: Shot, t: Scene, pattern: nat, row: nat, i: nat)
    requires SceneStored(v, s, t) && pattern < 256 && row < Size(s) && i < Size(s) * Magnification(s)
    ensures |Dots(v, s, pattern, row)| == Size(s) * Magnification(s)
    ensures Dots(v, s, pattern, row)[i] <==> ShapeDot(s, t, pattern, row, i / Magnification(s))
  {
    hide SceneStored, Dot;
    ShapeIsStored(v, s, t, pattern, row, i / Magnification(s));
  }

  lemma RowFits(s: Shot, depth: nat)
    requires depth < Side(s) * Zoom(s)
    ensures depth / Zoom(s) < Side(s) <= 16
  {
  }

  lemma ShownIsDepicted(v: Vram, s: Shot, t: Scene, r: SpriteRecord, p: Sprite, y: nat)
    requires SceneStored(v, s, t) && Paired(v, s, r, p) && OnLine(s, r, y)
    ensures Depicts(Show(v, s, r, y), s, t, p, y)
  {
    hide SceneStored, InkStored, LineAttribute, Dots, Depth, Relative, Size, Side, Magnification, Zoom, ShapeDot;
    SameLine(v, s, r, p, y);
    RowFits(s, Depth(s, p, y));
    var row := Relative(s, r, y) / Magnification(s);
    InkFields(LineAttribute(v, s, r, row), p.ink(row));
    var w := Show(v, s, r, y);
    assert w.x == p.x - (if InkAt(s, p, y).early then 32 else 0);
    forall x: int ensures DotAt(w, x) <==> Lit(s, t, p, x, y) {
      DotsAreShape(v, s, t, p.pattern, row, 0);
      if 0 <= x - w.x < Side(s) * Zoom(s) {
        DotsAreShape(v, s, t, p.pattern, row, x - w.x);
      }
    }
  }

  lemma {:induction false} VisibleAreDepicted(v: Vram, s: Shot, t: Scene, rs: seq<SpriteRecord>, ps: seq<Sprite>,
                                              y: nat, room: nat)
    requires SceneStored(v, s, t) && |rs| == |ps|
    requires forall i | 0 <= i < |rs| :: Paired(v, s, rs[i], ps[i])
    ensures forall r <- rs :: ValidRecord(r)
    ensures var vs, all := VisibleSprites(v, s, rs, y, room), Touching(s, ps, y);
            && |vs| == (if |all| <= room then |all| else room)
            && forall i | 0 <= i < |vs| :: Depicts(vs[i], s, t, all[i], y)
    decreases |rs|
  {
    hide SceneStored, Depicts, Show, OnLine, Touches, ValidRecord;
    PairedIsValid(v, s, rs, ps);
    if rs != [] && room > 0 {
      assert Paired(v, s, rs[0], ps[0]);
      SameLine(v, s, rs[0], ps[0], y);
      assert forall i | 0 <= i < |rs| - 1 :: Paired(v, s, rs[1..][i], ps[1..][i]);
      if OnLine(s, rs[0], y) {
        ShownIsDepicted(v, s, t, rs[0], ps[0], y);
        VisibleAreDepicted(v, s, t, rs[1..], ps[1..], y, room - 1);
      } else {
        VisibleAreDepicted(v, s, t, rs[1..], ps[1..], y, room);
      }
    }
  }

  lemma PairedIsValid(v: Vram, s: Shot, rs: seq<SpriteRecord>, ps: seq<Sprite>)
    requires |rs| == |ps| && forall i | 0 <= i < |rs| :: Paired(v, s, rs[i], ps[i])
    ensures forall r <- rs :: ValidRecord(r)
  {
    forall r <- rs ensures ValidRecord(r) {
      var i :| 0 <= i < |rs| && rs[i] == r;
      assert Paired(v, s, rs[i], ps[i]);
    }
  }

  // ------------------------------------------------------------ from the line to the dot

  predicate Weight(w: nat) {
    w == 8 || w == 4 || w == 2 || w == 1
  }

  lemma OrBits(a: nat, b: nat, w: nat)
    requires a < 16 && b < 16 && Weight(w)
    ensures HasBit(Or4(a, b), w) <==> HasBit(a, w) || HasBit(b, w)
  {
    BitsOf(Or4(a, b), 0, 0, 0, 0, One(HasBit(a, 8) || HasBit(b, 8)), One(HasBit(a, 4) || HasBit(b, 4)),
           One(HasBit(a, 2) || HasBit(b, 2)), One(HasBit(a, 1) || HasBit(b, 1)));
  }

  ghost predicate MixesFrom(vs: seq<Visible>, from: nat, x: int, w: nat)
    requires Weight(w)
  {
    exists m: nat :: from <= m < |vs| && (forall j | from <= j <= m :: vs[j].cc) && DotAt(vs[m], x)
                     && HasBit(vs[m].colour, w)
  }

  lemma {:induction false} MixedBits(vs: seq<Visible>, from: nat, x: int, colour: nat, w: nat)
    requires ValidVisible(vs) && from <= |vs| && colour < 16 && Weight(w)
    ensures HasBit(Mixed(vs, from, x, colour), w) <==> HasBit(colour, w) || MixesFrom(vs, from, x, w)
    decreases |vs| - from
  {
    hide Or4, DotAt, HasBit;
    if from < |vs| && vs[from].cc {
      assert vs[from] in vs;
      var next := if DotAt(vs[from], x) then Or4(colour, vs[from].colour) else colour;
      OrBits(colour, vs[from].colour, w);
      MixedBits(vs, from + 1, x, next, w);
      if MixesFrom(vs, from + 1, x, w) {
        var m: nat :| from + 1 <= m < |vs| && (forall j | from + 1 <= j <= m :: vs[j].cc) && DotAt(vs[m], x)
          && HasBit(vs[m].colour, w);
        assert MixesFrom(vs, from, x, w);
      }
      if MixesFrom(vs, from, x, w) {
        var m: nat :| from <= m < |vs| && (forall j | from <= j <= m :: vs[j].cc) && DotAt(vs[m], x)
          && HasBit(vs[m].colour, w);
        assert m == from || MixesFrom(vs, from + 1, x, w);
      }
    }
  }

  ghost predicate LineDepicts(vs: seq<Visible>, s: Shot, t: Scene, seen: seq<Sprite>, y: nat) {
    |vs| == |seen| && ValidVisible(vs) && forall i | 0 <= i < |vs| :: Depicts(vs[i], s, t, seen[i], y)
  }

  lemma SameMix(vs: seq<Visible>, s: Shot, t: Scene, seen: seq<Sprite>, k: nat, x: int, y: nat, w: nat)
    requires LineDepicts(vs, s, t, seen, y) && k < |seen| && Lit(s, t, seen[k], x, y) && Weight(w)
    ensures Mixes(s, t, seen, k, x, y, w) <==> HasBit(vs[k].colour, w) || MixesFrom(vs, k + 1, x, w)
  {
    hide Lit, InkAt, DotAt, HasBit;
    assert forall i | 0 <= i < |vs| :: Depicts(vs[i], s, t, seen[i], y);
    if HasBit(vs[k].colour, w) {
      assert Joined(s, seen, k, k, y);
    }
    if MixesFrom(vs, k + 1, x, w) {
      var m: nat :| k + 1 <= m < |vs| && (forall j | k + 1 <= j <= m :: vs[j].cc) && DotAt(vs[m], x)
        && HasBit(vs[m].colour, w);
      assert Joined(s, seen, k, m, y);
    }
    if Mixes(s, t, seen, k, x, y, w) {
      var m: nat :| Joined(s, seen, k, m, y) && Lit(s, t, seen[m], x, y) && HasBit(InkAt(s, seen[m], y).colour, w);
      assert m == k || MixesFrom(vs, k + 1, x, w);
    }
  }

  lemma FourBits(c: nat)
    requires c < 16
    ensures c == (if HasBit(c, 8) then 8 else 0) + (if HasBit(c, 4) then 4 else 0)
                 + (if HasBit(c, 2) then 2 else 0) + (if HasBit(c, 1) then 1 else 0)
  {
  }

  lemma MixedIsBlend(vs: seq<Visible>, s: Shot, t: Scene, seen: seq<Sprite>, k: nat, x: int, y: nat)
    requires LineDepicts(vs, s, t, seen, y) && k < |seen| && Lit(s, t, seen[k], x, y) && s.mode > 3
    ensures vs[k].colour < 16 && Mixed(vs, k + 1, x, vs[k].colour) == Blend(s, t, seen, k, x, y)
  {
    hide Lit, InkAt, DotAt, Mixed, MixesFrom, Mixes, Depicts, HasBit;
    assert vs[k] in vs;
    var c := Mixed(vs, k + 1, x, vs[k].colour);
    MixedBits(vs, k + 1, x, vs[k].colour, 8);
    MixedBits(vs, k + 1, x, vs[k].colour, 4);
    MixedBits(vs, k + 1, x, vs[k].colour, 2);
    MixedBits(vs, k + 1, x, vs[k].colour, 1);
    SameMix(vs, s, t, seen, k, x, y, 8);
    SameMix(vs, s, t, seen, k, x, y, 4);
    SameMix(vs, s, t, seen, k, x, y, 2);
    SameMix(vs, s, t, seen, k, x, y, 1);
    FourBits(c);
  }

  lemma ColourIsShown(vs: seq<Visible>, s: Shot, t: Scene, seen: seq<Sprite>, k: nat, x: int, y: nat)
    requires s.mode != 0 && LineDepicts(vs, s, t, seen, y) && k < |seen|
    ensures ColourAt(s, vs, k, x)
         == if Shows(s, t, seen, k, x, y) then Some(Blend(s, t, seen, k, x, y)) else None
  {
    hide Lit, InkAt, DotAt, Mixed, Mixes;
    assert Depicts(vs[k], s, t, seen[k], y);
    if s.mode > 3 && Lit(s, t, seen[k], x, y) {
      MixedIsBlend(vs, s, t, seen, k, x, y);
    }
  }

  /** The first sprite from number `from` on that shows. */
  lemma {:induction false} FirstIsShown(vs: seq<Visible>, s: Shot, t: Scene, seen: seq<Sprite>, from: nat, x: int,
                                        y: nat)
    requires s.mode != 0 && LineDepicts(vs, s, t, seen, y) && from <= |seen|
    ensures (forall k: nat | from <= k :: !Shows(s, t, seen, k, x, y)) ==> First(s, vs, from, x) == None
    ensures forall k: nat | from <= k && Shows(s, t, seen, k, x, y)
                            && (forall j: nat | from <= j < k :: !Shows(s, t, seen, j, x, y)) ::
              First(s, vs, from, x) == Some(Blend(s, t, seen, k, x, y))
    decreases |seen| - from
  {
    hide Shows, Blend, LineDepicts, ColourAt, ValidVisible;
    Equal(vs, s, t, seen, y);
    if from < |seen| {
      ColourIsShown(vs, s, t, seen, from, x, y);
      FirstIsShown(vs, s, t, seen, from + 1, x, y);
      FirstStep(s, vs, from, x);
    }
  }

  lemma FirstStep(s: Shot, vs: seq<Visible>, k: nat, x: int)
    requires ValidVisible(vs) && k < |vs|
    ensures First(s, vs, k, x)
         == if ColourAt(s, vs, k, x).Some? then ColourAt(s, vs, k, x) else First(s, vs, k + 1, x)
  {
  }

  lemma Equal(vs: seq<Visible>, s: Shot, t: Scene, seen: seq<Sprite>, y: nat)
    requires LineDepicts(vs, s, t, seen, y)
    ensures |vs| == |seen| && ValidVisible(vs)
  {
  }

  // ------------------------------------------------------------ the theorem

  lemma LineIsDepicted(v: Vram, s: Shot, t: Scene, y: nat)
    requires s.mode != 0 && SceneStored(v, s, t)
    ensures LineDepicts(VisibleSprites(v, s, Records(v, s, 0), y, Limit(s)), s, t, Seen(s, t, y), y)
  {
    hide SceneStored, Paired, Depicts, Records;
    SceneSize(v, s, t);
    RecordsArePaired(v, s, t, 0);
    VisibleAreDepicted(v, s, t, Records(v, s, 0), t.sprites, y, Limit(s));
  }

  lemma SceneSize(v: Vram, s: Shot, t: Scene)
    requires SceneStored(v, s, t)
    ensures |t.sprites| <= 32
  {
  }

  lemma PaintIsPainted(s: Shot, st: Style, colour: nat, x: nat)
    requires colour < 16
    ensures Paint(s, st, colour, x % XScale(s.mode)) == Painted(s, st, colour, x)
  {
  }

  /** On SCREEN 6 and 7 a sprite dot is as wide as two pixels. */
  function SpriteColumn(s: Shot, x: nat): nat {
    if s.mode == 6 || s.mode == 7 then x / 2 else x
  }

  /** The `k`-th sprite of a line is the first that shows at a dot. */
  ghost predicate Wins(s: Shot, t: Scene, seen: seq<Sprite>, k: nat, x: int, y: nat): (b: bool)
    ensures b ==> k < |seen|
  {
    Shows(s, t, seen, k, x, y) && forall j: nat | j < k :: !Shows(s, t, seen, j, x, y)
  }

  lemma Overlaid(v: Vram, s: Shot, st: Style, x: nat, y: nat, c: Option<nat>)
    requires Drawable(s) && s.mode != 0 && s.sprites && Reg(s.regs, 8) / 2 % 2 == 0
    requires x < Width(s) && y < s.height
    requires c == First(s, VisibleSprites(v, s, Records(v, s, 0), y, Limit(s)), 0, SpriteColumn(s, x))
    ensures c.Some? ==> c.value < 16
    ensures Pixel(v, s, st, x, y)
         == match c case None => Background(v, s, st, x, y) case Some(colour) => Painted(s, st, colour, x)
  {
    hide Background, Records, VisibleSprites, First, Painted, Paint;
    assert DrawsSprites(s);
    if c.Some? {
      PaintIsPainted(s, st, c.value, x);
    }
  }

  /**
   * The first sprite of the line that shows at a dot is seen there, and the background where none
   * does.
   */
  lemma SceneIsShown(v: Vram, s: Shot, st: Style, t: Scene, x: nat, y: nat)
    requires Drawable(s) && s.mode != 0 && s.sprites && Reg(s.regs, 8) / 2 % 2 == 0 && SceneStored(v, s, t)
    requires x < Width(s) && y < s.height
    ensures var seen, sx := Seen(s, t, y), SpriteColumn(s, x);
            && ((forall k: nat :: !Shows(s, t, seen, k, sx, y)) ==>
                  Pixel(v, s, st, x, y) == Background(v, s, st, x, y))
            && forall k: nat | Wins(s, t, seen, k, sx, y) ::
                 Blend(s, t, seen, k, sx, y) < 16
                 && Pixel(v, s, st, x, y) == Painted(s, st, Blend(s, t, seen, k, sx, y), x)
  {
    hide Shows, Blend, LineDepicts, Background, Seen, Records, VisibleSprites, First, Painted, Paint, SceneStored,
      Pixel, SpriteColumn, Drawable, Width;
    var seen, sx := Seen(s, t, y), SpriteColumn(s, x);
    var vs := VisibleSprites(v, s, Records(v, s, 0), y, Limit(s));
    LineIsDepicted(v, s, t, y);
    Equal(vs, s, t, seen, y);
    FirstIsShown(vs, s, t, seen, 0, sx, y);
    Overlaid(v, s, st, x, y, First(s, vs, 0, sx));
  }

  /** A screenshot of a stored screen with stored sprites. */
  method PhotographScene(v: Vram, s: Shot, st: Style, screen: Screen, t: Scene) returns (output: array2<Rgb>)
    requires Drawable(s) && s.mode != 0 && s.sprites && Reg(s.regs, 8) / 2 % 2 == 0
    requires Stored(v, s, screen) && SceneStored(v, s, t)
    ensures output.Length0 == s.height && output.Length1 == ViewWidth(s) == Width(s)
    ensures forall x: nat, y: nat | x < Width(s) && y < s.height ::
      (forall k: nat :: !Shows(s, t, Seen(s, t, y), k, SpriteColumn(s, x), y)) ==>
        output[y, x] == Meant(s, st, screen, x, y)
    ensures forall x: nat, y: nat, k: nat |
        x < Width(s) && y < s.height && Wins(s, t, Seen(s, t, y), k, SpriteColumn(s, x), y) ::
      var colour := Blend(s, t, Seen(s, t, y), k, SpriteColumn(s, x), y);
      colour < 16 && output[y, x] == Painted(s, st, colour, x)
  {
    hide Pixel, Meant, Stored, SceneStored, Drawable, Width, ViewWidth, Shows, Wins, Blend, Painted, Seen, SpriteColumn;
    Possible(s);
    ViewIsPicture(s);
    var picture := Screenshot(v, s, st);
    output := picture;
    forall x: nat, y: nat | x < Width(s) && y < s.height
      ensures (forall k: nat :: !Shows(s, t, Seen(s, t, y), k, SpriteColumn(s, x), y)) ==>
        output[y, x] == Meant(s, st, screen, x, y)
      ensures forall k: nat | Wins(s, t, Seen(s, t, y), k, SpriteColumn(s, x), y) ::
        var colour := Blend(s, t, Seen(s, t, y), k, SpriteColumn(s, x), y);
        colour < 16 && output[y, x] == Painted(s, st, colour, x)
    {
      SceneIsShown(v, s, st, t, x, y);
      StoredIsBackground(v, s, st, screen, x, y);
    }
  }
}

/**
 * A screenshot fetches only the addresses it planned.  The picture drawn from the sparse image
 * is, pixel for pixel, the picture the whole video memory would give.
 */
module SparseCapture {
  import opened Octets
  import opened Bytes
  import opened VdpTables
  import opened VdpRender
  import opened VdpSprites

  /** The picture: sprites over the background. */
  function Pixel(v: Vram, s: Shot, st: Style, x: nat, y: nat): Rgb
    requires Drawable(s) && x < Width(s) && y < s.height
  {
    if DrawsSprites(s) && SpritePixel(v, s, st, x, y).Some? then SpritePixel(v, s, st, x, y).value
    else Background(v, s, st, x, y)
  }

  /** Two images agree on the entries of a table. */
  predicate SameEntries(v: Vram, w: Vram, t: Table, from: nat, to: nat)
    requires Usable(t) && to <= 0x1_0000
  {
    forall i | from <= i < to :: Fetch(v, t, i) == Fetch(w, t, i)
  }

  lemma EntriesAgree(v: Vram, w: Vram, addresses: set<nat>, t: Table, from: nat, to: nat)
    requires Usable(t) && to <= 0x1_0000
    requires Agree(v, w, addresses) && Entries(t, from, to) <= addresses
    ensures SameEntries(v, w, t, from, to)
  {
    hide TableAddr, At;
    forall i | from <= i < to ensures Fetch(v, t, i) == Fetch(w, t, i) {
      assert At(t, i) in Entries(t, from, to);
    }
  }

  lemma TextAgrees(v: Vram, w: Vram, s: Shot, st: Style, x: nat, y: nat)
    requires Drawable(s) && s.mode == 0 && x < Width(s) && y < s.height
    requires Agree(v, w, CharacterAddresses(s))
    ensures TextPixel(v, s, st, x, y) == TextPixel(w, s, st, x, y)
  {
    hide Fetch, Bit, Foreground, TableAddr, At, Entries, Names, Patterns, Colours;
    var all, row, column := CharacterAddresses(s), y / 8, x / 6;
    EntriesAgree(v, w, all, Patterns(s.regs, 11), 0, 0x800);
    assert row < TextRows(s);
    if TextColumns(s) == 40 {
      EntriesAgree(v, w, all, Names(s.regs, 12), 0xC00, 0xC00 + TextRows(s) * 40);
    } else {
      EntriesAgree(v, w, all, Names(s.regs, 12), 0, TextRows(s) * 80);
      EntriesAgree(v, w, all, Colours(s.regs, 9), 0, TextRows(s) * 10);
    }
    assert TextChar(v, s, row, column) == TextChar(w, s, row, column);
  }

  lemma TilesAgree(v: Vram, w: Vram, s: Shot, st: Style, x: nat, y: nat)
    requires Drawable(s) && 1 <= s.mode <= 4 && x < Width(s) && y < s.height
    requires Agree(v, w, CharacterAddresses(s))
    ensures TilePixel(v, s, st, x, y) == TilePixel(w, s, st, x, y)
  {
    hide Fetch, Bit, Foreground, TableAddr, At, Entries, Names, Patterns, Colours;
    var all := CharacterAddresses(s);
    EntriesAgree(v, w, all, Names(s.regs, 10), 0, 0x400);
    if s.mode == 1 {
      EntriesAgree(v, w, all, Patterns(s.regs, 11), 0, 0x800);
      EntriesAgree(v, w, all, Colours(s.regs, 6), 0, 0x40);
    } else if s.mode == 3 {
      EntriesAgree(v, w, all, Patterns(s.regs, 11), 0, 0x800);
    } else {
      EntriesAgree(v, w, all, Patterns(s.regs, 13), 0, 0x2000);
      EntriesAgree(v, w, all, Colours(s.regs, 13), 0, 0x2000);
    }
    var line := SourceLine(s, y);
    assert TileChar(v, s, line, x / 8) == TileChar(w, s, line, x / 8);
  }

  lemma OctetsAgree(v: Vram, w: Vram, s: Shot, base: nat, y: nat, k: nat)
    requires 5 <= s.mode && y < s.height && k < Stride(s.mode) && base + PageSize(s.mode) <= VRAM_SIZE
    requires Agree(v, w, BitmapAddresses(s, base))
    ensures Octet(v, s, base, SourceLine(s, y), k) == Octet(w, s, base, SourceLine(s, y), k)
  {
    assert LineAddress(s, base, y, k) in BitmapAddresses(s, base);
    LineFits(SourceLine(s, y), Stride(s.mode), k, PageSize(s.mode));
  }

  lemma BitmapAgrees(v: Vram, w: Vram, s: Shot, st: Style, x: nat, y: nat)
    requires Drawable(s) && s.mode > 4 && x < Width(s) && y < s.height
    requires Agree(v, w, BitmapAddresses(s, PageBase(s).value))
    ensures BitmapPixel(v, s, st, x, y) == BitmapPixel(w, s, st, x, y)
  {
    hide Octet, Foreground, Rgb332, YjkPixel, PageBase, BitmapAddresses, SourceLine;
    var base, sx := PageBase(s).value, (x + ScrollX(s)) % Width(s);
    PageFits(s);
    if s.mode == 5 || s.mode == 7 {
      OctetsAgree(v, w, s, base, y, sx / 2);
    } else if s.mode == 6 {
      OctetsAgree(v, w, s, base, y, sx / 4);
    } else if s.mode == 8 {
      OctetsAgree(v, w, s, base, y, sx);
    } else {
      var g := sx / 4 * 4;
      OctetsAgree(v, w, s, base, y, g);
      OctetsAgree(v, w, s, base, y, g + 1);
      OctetsAgree(v, w, s, base, y, g + 2);
      OctetsAgree(v, w, s, base, y, g + 3);
    }
  }

  lemma PageFits(s: Shot)
    requires PageBase(s).Some?
    ensures PageBase(s).value + PageSize(s.mode) <= VRAM_SIZE
  {
  }

  // ------------------------------------------------------------ sprites

  /** The two sprite tables, as far as the plan fetches them. */
  predicate SameSprites(v: Vram, w: Vram, s: Shot) {
    && SameEntries(v, w, SpriteAttributes(s.regs, SpriteMode(s.mode)), 0,
                   if SpriteMode(s.mode) == 2 then 0x400 else 0x80)
    && SameEntries(v, w, SpritePatterns(s.regs), 0, 0x800)
  }

  lemma {:induction false} RecordsAgree(v: Vram, w: Vram, s: Shot, from: nat)
    requires SameSprites(v, w, s) && from <= 32
    ensures Records(v, s, from) == Records(w, s, from)
    decreases 32 - from
  {
    hide Fetch, SpriteAttributes, SpritePatterns;
    if from < 32 {
      assert forall field: nat | field < 4 :: Attribute(v, s, from, field) == Attribute(w, s, from, field);
      RecordsAgree(v, w, s, from + 1);
    }
  }

  lemma LineAttributeAgrees(v: Vram, w: Vram, s: Shot, r: SpriteRecord, row: nat)
    requires SameSprites(v, w, s) && ValidRecord(r) && row < 16
    ensures LineAttribute(v, s, r, row) == LineAttribute(w, s, r, row)
  {
    hide Fetch, SpriteAttributes, SpritePatterns;
  }

  lemma DotsAgree(v: Vram, w: Vram, s: Shot, pattern: nat, row: nat)
    requires SameSprites(v, w, s) && pattern < 256 && row < Size(s)
    ensures Dots(v, s, pattern, row) == Dots(w, s, pattern, row)
  {
    hide Fetch, Bit, SpriteAttributes, SpritePatterns, Size, Magnification;
    forall k: nat | k < Size(s) ensures Dot(v, s, pattern, row, k) == Dot(w, s, pattern, row, k) {
    }
  }

  lemma ShowAgrees(v: Vram, w: Vram, s: Shot, r: SpriteRecord, y: nat)
    requires SameSprites(v, w, s) && ValidRecord(r) && OnLine(s, r, y)
    ensures Show(v, s, r, y) == Show(w, s, r, y)
  {
    hide SameSprites, LineAttribute, Dots, Size;
    var row := Relative(s, r, y) / Magnification(s);
    LineAttributeAgrees(v, w, s, r, row);
    DotsAgree(v, w, s, r.pattern, row);
  }

  lemma {:induction false} VisibleAgree(v: Vram, w: Vram, s: Shot, rs: seq<SpriteRecord>, y: nat, room: nat)
    requires SameSprites(v, w, s) && forall r <- rs :: ValidRecord(r)
    ensures VisibleSprites(v, s, rs, y, room) == VisibleSprites(w, s, rs, y, room)
    decreases |rs|
  {
    hide SameSprites, Show, OnLine;
    if rs != [] && room > 0 {
      assert rs[0] in rs && forall r <- rs[1..] :: r in rs;
      if OnLine(s, rs[0], y) {
        ShowAgrees(v, w, s, rs[0], y);
        VisibleAgree(v, w, s, rs[1..], y, room - 1);
      } else {
        VisibleAgree(v, w, s, rs[1..], y, room);
      }
    }
  }

  lemma SpritesAgree(v: Vram, w: Vram, s: Shot, st: Style, x: nat, y: nat)
    requires Agree(v, w, SpriteAddresses(s))
    ensures SpritePixel(v, s, st, x, y) == SpritePixel(w, s, st, x, y)
  {
    hide Records, VisibleSprites, First, Paint, Entries, SpriteAttributes, SpritePatterns;
    var all := SpriteAddresses(s);
    EntriesAgree(v, w, all, SpriteAttributes(s.regs, SpriteMode(s.mode)), 0,
                 if SpriteMode(s.mode) == 2 then 0x400 else 0x80);
    EntriesAgree(v, w, all, SpritePatterns(s.regs), 0, 0x800);
    RecordsAgree(v, w, s, 0);
    VisibleAgree(v, w, s, Records(v, s, 0), y, Limit(s));
  }

  // ------------------------------------------------------------ the theorem

  lemma AgreeOnPart(v: Vram, w: Vram, part: set<nat>, all: set<nat>)
    requires Agree(v, w, all) && part <= all
    ensures Agree(v, w, part)
  {
  }

  /** Images that agree on the planned addresses give the same picture. */
  lemma SparseIsExact(v: Vram, w: Vram, s: Shot, st: Style, x: nat, y: nat)
    requires Drawable(s) && x < Width(s) && y < s.height
    requires Planned(s).Some? && Agree(v, w, Planned(s).value)
    ensures Pixel(v, s, st, x, y) == Pixel(w, s, st, x, y)
  {
    hide Agree, CharacterAddresses, BitmapAddresses, SpriteAddresses, TextPixel, TilePixel, BitmapPixel,
      SpritePixel, DrawsSprites;
    var all := Planned(s).value;
    if s.mode <= 4 {
      AgreeOnPart(v, w, CharacterAddresses(s), all);
      if s.mode == 0 {
        TextAgrees(v, w, s, st, x, y);
      } else {
        TilesAgree(v, w, s, st, x, y);
      }
    } else {
      AgreeOnPart(v, w, BitmapAddresses(s, PageBase(s).value), all);
      BitmapAgrees(v, w, s, st, x, y);
    }
    if DrawsSprites(s) {
      AgreeOnPart(v, w, SpriteAddresses(s), all);
      SpritesAgree(v, w, s, st, x, y);
    }
  }

  /** Draws from an image. */
  method Render(v: Vram, s: Shot, st: Style) returns (output: array2<Rgb>)
    requires Drawable(s)
    ensures fresh(output) && output.Length0 == s.height && output.Length1 == Width(s)
    ensures forall x: nat, y: nat | x < Width(s) && y < s.height :: output[y, x] == Pixel(v, s, st, x, y)
  {
    hide TextPixel, TilePixel, BitmapPixel, SpritePixel, DrawsSprites;
    output := new Rgb[s.height, Width(s)]((_, _) => BLACK);
    if s.mode == 0 {
      PaintText(v, s, st, output);
    } else if s.mode <= 4 {
      PaintTiles(v, s, st, output);
    } else {
      PaintBitmap(v, s, st, output);
    }
    CompositeSprites(v, s, st, output);
  }

  /** Plan, fetch and draw: the result is the picture of the target's whole memory. */
  method Screenshot(target: Vram, s: Shot, st: Style) returns (output: array2?<Rgb>)
    requires Supported(s.mode) && s.height <= 256
    ensures output != null <==> Drawable(s)
    ensures output != null ==> output.Length0 == s.height && output.Length1 == Width(s)
    ensures output != null ==>
      forall x: nat, y: nat | x < Width(s) && y < s.height :: output[y, x] == Pixel(target, s, st, x, y)
  {
    hide Agree, CharacterAddresses, BitmapAddresses, SpriteAddresses, Pixel, PageBase;
    var planned := Planned(s);
    if planned.None? || s.height == 0
       || (s.mode == 0 && TextColumns(s) != 40 && TextColumns(s) != 80) {
      return null;
    }
    PlannedFits(s);
    var image := CaptureVram(target, planned.value);
    var picture := Render(image, s, st);
    forall x: nat, y: nat | x < Width(s) && y < s.height
      ensures Pixel(image, s, st, x, y) == Pixel(target, s, st, x, y)
    {
      SparseIsExact(image, target, s, st, x, y);
    }
    return picture;
  }
}

/**
 * Video memory, the address masks of the V99x8 tables, and the sparse capture: which bytes a
 * screenshot needs, the ranges they are fetched in, and the memory image they are put into.
 */
module VdpTables {
  import opened Octets
  import opened Bytes

  const VRAM_SIZE := 0x2_0000

  type Vram = v: seq<Byte> | |v| == VRAM_SIZE witness seq(VRAM_SIZE, _ => 0)

  type Registers = r: seq<Byte> | |r| == 28 witness seq(28, _ => 0)

  function Reg(r: Registers, i: nat): (b: nat)
    requires i < 28
    ensures b < 256
  {
    r[i]
  }

  // ------------------------------------------------------------ table addresses

  function Pow2(n: nat): (p: nat)
    ensures p > 0
  {
    if n == 0 then 1 else 2 * Pow2(n - 1)
  }

  /** Bitwise conjunction. */
  function And(a: nat, b: nat): (c: nat)
    ensures c <= a && c <= b
  {
    if a == 0 || b == 0 then 0
    else 2 * And(a / 2, b / 2) + (if a % 2 == 1 && b % 2 == 1 then 1 else 0)
  }

  /** Bitwise disjunction. */
  function Or(a: nat, b: nat): nat {
    if a == 0 then b
    else if b == 0 then a
    else 2 * Or(a / 2, b / 2) + (if a % 2 == 1 || b % 2 == 1 then 1 else 0)
  }

  /** The address lines a table register leaves free are driven by the index, the others by AND. */
  function TableAddr(base: nat, lowBits: nat, index: nat, indexBits: nat): (a: nat)
    requires lowBits <= 16 && indexBits <= 16
    ensures a < VRAM_SIZE
  {
    Pow2Upto(indexBits);
    And(Or(base, Pow2(lowBits) - 1) % VRAM_SIZE, Or(index, VRAM_SIZE - Pow2(indexBits)))
  }

  lemma {:induction false} Pow2Sum(a: nat, b: nat)
    ensures Pow2(a + b) == Pow2(a) * Pow2(b)
  {
    if a > 0 {
      hide Pow2;
      Doubled(a - 1);
      Doubled(a - 1 + b);
      Pow2Sum(a - 1, b);
      TwiceTimes(Pow2(a - 1), Pow2(b));
    }
  }

  lemma Doubled(n: nat)
    ensures Pow2(n + 1) == 2 * Pow2(n)
  {
  }

  lemma TwiceTimes(p: nat, q: nat)
    ensures (2 * p) * q == 2 * (p * q)
  {
  }

  lemma Pow2Upto(n: nat)
    requires n <= 17
    ensures Pow2(n) * Pow2(17 - n) == VRAM_SIZE && Pow2(n) <= VRAM_SIZE
  {
    AllAddresses();
    Pow2Sum(n, 17 - n);
    AtLeast(Pow2(n), Pow2(17 - n));
  }

  lemma AllAddresses()
    ensures Pow2(17) == VRAM_SIZE
  {
    Pow2Sum(8, 9);
    assert Pow2(8) == 256 && Pow2(9) == 512;
  }

  lemma AtLeast(p: nat, q: nat)
    requires q > 0
    ensures p <= p * q
  {
  }

  // ------------------------------------------------------------ the law of the address lines

  /** An address of which `low` is on the lowest `n` lines and `high` on the others. */
  function Join(n: nat, high: nat, low: nat): nat {
    high * Pow2(n) + low
  }

  /**
   * The address as the hardware forms it.  The lines above the table's size come from the register
   * (`h`), those below its grain from the index (`r`), and those in between from both (`m`, `q`).
   */
  lemma Wiring(l: nat, o: nat, h: nat, m: nat, t: nat, q: nat, r: nat)
    requires l + o <= 16 && m < Pow2(o) && q < Pow2(o) && r < Pow2(l) && t < Pow2(17 - (l + o))
    ensures TableAddr(Join(l, Join(o, h, m), 0), l, Join(l, Join(o, t, q), r), l + o)
         == Join(l, Join(o, h % Pow2(17 - (l + o)), And(m, q)), r)
  {
    hide And, Or, Pow2, Join;
    var n, low := l + o, Pow2(l) - 1;
    var top, all := h % Pow2(17 - n), Pow2(17 - n) - 1;
    // the register's lines, with the free ones set
    JoinZero(l, low);
    LinesApart(l, Join(o, h, m), 0, 0, low);
    NoLines(Join(o, h, m));
    NoLines(low);
    Regroup(l, o, h, m, low);
    JoinBelow(l, o, m, low);
    JoinWraps(n, h, Join(l, m, low));
    // the index, with the lines above the table set
    HighLines(n);
    Regroup(l, o, t, q, r);
    JoinBelow(l, o, q, r);
    LinesApart(n, t, Join(l, q, r), all, 0);
    NoLines(Join(l, q, r));
    AllLines(17 - n, t);
    // both
    LinesApart(n, top, Join(l, m, low), all, Join(l, q, r));
    AllLines(17 - n, top);
    LinesApart(l, m, low, q, r);
    AllLines(l, r);
    Regroup(l, o, top, And(m, q), r);
  }

  lemma OrStep(a: nat, b: nat)
    ensures Or(a, b) == 2 * Or(a / 2, b / 2) + (if a % 2 == 1 || b % 2 == 1 then 1 else 0)
  {
  }

  lemma AndStep(a: nat, b: nat)
    ensures And(a, b) == 2 * And(a / 2, b / 2) + (if a % 2 == 1 && b % 2 == 1 then 1 else 0)
  {
  }

  lemma NoLines(a: nat)
    ensures Or(a, 0) == a == Or(0, a)
  {
  }

  lemma {:induction false} AllLines(n: nat, a: nat)
    requires a < Pow2(n)
    ensures And(a, Pow2(n) - 1) == a == And(Pow2(n) - 1, a) && Or(a, Pow2(n) - 1) == Pow2(n) - 1
  {
    if n > 0 {
      hide And, Or;
      var half, all := Pow2(n - 1) - 1, Pow2(n) - 1;
      assert all == 2 * half + 1 && all / 2 == half && all % 2 == 1;
      AllLines(n - 1, a / 2);
      AndStep(a, all);
      AndStep(all, a);
      OrStep(a, all);
    }
  }

  lemma Halves(n: nat, high: nat, low: nat)
    requires n > 0 && low < Pow2(n)
    ensures low / 2 < Pow2(n - 1)
    ensures Join(n, high, low) / 2 == Join(n - 1, high, low / 2) && Join(n, high, low) % 2 == low % 2
  {
    Twice(n, high, low);
  }

  lemma Twice(n: nat, high: nat, low: nat)
    requires n > 0
    ensures Join(n, high, low) == 2 * Join(n - 1, high, low / 2) + low % 2
  {
    assert high * Pow2(n) == 2 * (high * Pow2(n - 1));
  }

  /** Both operations work on the high and the low lines apart. */
  lemma {:induction false} LinesApart(n: nat, a1: nat, a0: nat, b1: nat, b0: nat)
    requires a0 < Pow2(n) && b0 < Pow2(n)
    ensures Or(Join(n, a1, a0), Join(n, b1, b0)) == Join(n, Or(a1, b1), Or(a0, b0))
    ensures And(Join(n, a1, a0), Join(n, b1, b0)) == Join(n, And(a1, b1), And(a0, b0))
  {
    hide And, Or;
    if n == 0 {
      OrStep(0, 0);
      AndStep(0, 0);
    } else {
      hide Pow2, Join;
      Halves(n, a1, a0);
      Halves(n, b1, b0);
      LinesApart(n - 1, a1, a0 / 2, b1, b0 / 2);
      OrStep(Join(n, a1, a0), Join(n, b1, b0));
      AndStep(Join(n, a1, a0), Join(n, b1, b0));
      OrStep(a0, b0);
      AndStep(a0, b0);
      Twice(n, Or(a1, b1), Or(a0, b0));
      Twice(n, And(a1, b1), And(a0, b0));
    }
  }

  lemma JoinZero(n: nat, low: nat)
    ensures Join(n, 0, low) == low
  {
  }

  lemma Regroup(l: nat, o: nat, h: nat, m: nat, r: nat)
    ensures Join(l, Join(o, h, m), r) == Join(l + o, h, Join(l, m, r))
  {
    hide Pow2;
    Pow2Sum(o, l);
    var O, L := Pow2(o), Pow2(l);
    assert (h * O + m) * L == h * (O * L) + m * L;
  }

  lemma JoinBelow(l: nat, o: nat, m: nat, r: nat)
    requires m < Pow2(o) && r < Pow2(l)
    ensures Join(l, m, r) < Pow2(l + o)
  {
    hide Pow2;
    Pow2Sum(o, l);
    WithinRow(m, Pow2(o), Pow2(l), r);
  }

  lemma WithinRow(m: nat, O: nat, L: nat, r: nat)
    requires m < O && r < L
    ensures m * L + r < O * L
  {
    assert m * L + L == (m + 1) * L;
    assert (m + 1) * L <= O * L;
  }

  lemma JoinWraps(n: nat, h: nat, low: nat)
    requires n <= 17 && low < Pow2(n)
    ensures Join(n, h, low) % VRAM_SIZE == Join(n, h % Pow2(17 - n), low)
  {
    hide Pow2;
    Pow2Upto(n);
    Wraps(h, Pow2(17 - n), Pow2(n), low);
  }

  lemma Wraps(h: nat, K: nat, N: nat, low: nat)
    requires K > 0 && K * N == VRAM_SIZE && low < N
    ensures (h * N + low) % VRAM_SIZE == h % K * N + low
  {
    var k, top := h / K, h % K;
    assert h == k * K + top;
    assert h * N == k * (K * N) + top * N;
    WithinRow(top, K, N, low);
    Remainder(k, top * N + low);
  }

  lemma Remainder(k: nat, rest: nat)
    requires rest < VRAM_SIZE
    ensures (k * VRAM_SIZE + rest) % VRAM_SIZE == rest
  {
  }

  lemma HighLines(n: nat)
    requires n <= 17
    ensures Pow2(n) <= VRAM_SIZE && VRAM_SIZE - Pow2(n) == Join(n, Pow2(17 - n) - 1, 0)
  {
    hide Pow2;
    Pow2Upto(n);
  }

  /** A table: where its register points, and how far the register and the index reach. */
  datatype Table = Table(base: nat, lowBits: nat, indexBits: nat)

  predicate Usable(t: Table) {
    t.lowBits <= 16 && t.indexBits <= 16
  }

  function At(t: Table, index: nat): (a: nat)
    requires Usable(t) && index < 0x1_0000
    ensures a < VRAM_SIZE
  {
    TableAddr(t.base, t.lowBits, index, t.indexBits)
  }

  function Names(r: Registers, indexBits: nat): (t: Table)
    requires indexBits <= 16
    ensures Usable(t)
  {
    Table(Reg(r, 2) * 0x400, 10, indexBits)
  }

  function Patterns(r: Registers, indexBits: nat): (t: Table)
    requires indexBits <= 16
    ensures Usable(t)
  {
    Table(Reg(r, 4) * 0x800, 11, indexBits)
  }

  function Colours(r: Registers, indexBits: nat): (t: Table)
    requires indexBits <= 16
    ensures Usable(t)
  {
    Table(Reg(r, 10) * 0x4000 + Reg(r, 3) * 0x40, 6, indexBits)
  }

  function SpriteAttributes(r: Registers, spriteMode: nat): (t: Table)
    ensures Usable(t)
  {
    Table(Reg(r, 11) * 0x8000 + Reg(r, 5) * 0x80, 7, if spriteMode == 2 then 10 else 7)
  }

  function SpritePatterns(r: Registers): (t: Table)
    ensures Usable(t)
  {
    Table(Reg(r, 6) * 0x800, 11, 11)
  }

  // ------------------------------------------------------------ the tables in plain numbers

  /** `Wiring` for a register whose unit is the grain of the table. */
  lemma WiredUnit(unit: nat, l: nat, o: nat, index: nat)
    requires l + o <= 16 && index < VRAM_SIZE
    ensures TableAddr(unit * Pow2(l), l, index, l + o)
         == Join(l, Join(o, unit / Pow2(o) % Pow2(17 - (l + o)),
                         And(unit % Pow2(o), index / Pow2(l) % Pow2(o))), index % Pow2(l))
  {
    hide TableAddr, And, Pow2, Join;
    var h, m, steps := unit / Pow2(o), unit % Pow2(o), index / Pow2(l);
    var t, q, r := steps / Pow2(o), steps % Pow2(o), index % Pow2(l);
    Rejoin(o, unit);
    Rejoin(o, steps);
    Rejoin(l, index);
    Regroup(l, o, t, q, r);
    HighPart(l + o, t, Join(l, q, r));
    AtGrain(l, unit);
    Wiring(l, o, h, m, t, q, r);
  }

  lemma Rejoin(n: nat, a: nat)
    ensures a / Pow2(n) >= 0 && 0 <= a % Pow2(n) < Pow2(n)
    ensures Join(n, a / Pow2(n), a % Pow2(n)) == a
  {
    hide Pow2;
    Quotient(a, Pow2(n));
  }

  lemma Quotient(a: nat, p: nat)
    requires p > 0
    ensures a / p >= 0 && 0 <= a % p < p && a / p * p + a % p == a
  {
  }

  lemma AtGrain(n: nat, unit: nat)
    ensures Join(n, unit, 0) == unit * Pow2(n)
  {
  }

  lemma HighPart(n: nat, t: nat, low: nat)
    requires n <= 17 && Join(n, t, low) < VRAM_SIZE
    ensures t < Pow2(17 - n)
  {
    hide Pow2;
    Pow2Upto(n);
    NotBeyond(t, Pow2(17 - n), Pow2(n));
  }

  lemma NotBeyond(t: nat, K: nat, N: nat)
    requires t * N < K * N
    ensures t < K
  {
    if t >= K {
      TimesGrows(K, t, N);
    }
  }

  lemma TimesGrows(K: nat, t: nat, N: nat)
    requires K <= t
    ensures K * N <= t * N
  {
    assert t * N == K * N + (t - K) * N;
  }

  /** The same with the powers of two written out. */
  lemma WiredNumbers(unit: nat, l: nat, o: nat, index: nat, step: nat, span: nat, top: nat)
    requires l + o <= 16 && index < VRAM_SIZE
    requires step == Pow2(l) && span == Pow2(o) && top == Pow2(17 - (l + o))
    ensures TableAddr(unit * step, l, index, l + o)
         == (unit / span % top * span + And(unit % span, index / step % span)) * step + index % step
  {
    hide TableAddr, And, Pow2;
    WiredUnit(unit, l, o, index);
  }

  lemma NoneShared()
    ensures And(0, 0) == 0
  {
  }

  /** Characters of a text screen; in 40 columns the table starts where the register points. */
  function TextNamePlace(r: Registers, columns: nat, row: nat, column: nat): (place: nat)
    ensures place < VRAM_SIZE
  {
    var i := if columns == 40 then 0xC00 + row * 40 + column else row * 80 + column;
    Reg(r, 2) / 4 % 32 * 4096 + And(Reg(r, 2) % 4, i / 1024 % 4) * 1024 + i % 1024
  }

  /** Eight blink flags of a text screen of 80 columns. */
  function BlinkPlace(r: Registers, i: nat): (place: nat)
    ensures place < VRAM_SIZE
  {
    var unit := Reg(r, 10) * 256 + Reg(r, 3);
    unit / 8 % 256 * 512 + And(unit % 8, i / 64 % 8) * 64 + i % 64
  }

  function NamePlace(r: Registers, row: nat, column: nat): (place: nat)
    ensures row < 32 && column < 32 ==> place < VRAM_SIZE
  {
    Reg(r, 2) % 128 * 1024 + row * 32 + column
  }

  function PatternPlace(r: Registers, i: nat): (place: nat)
    ensures i < 0x800 ==> place < VRAM_SIZE
  {
    Reg(r, 4) % 64 * 2048 + i
  }

  function ColourPlace(r: Registers, i: nat): (place: nat)
    ensures i < 0x40 ==> place < VRAM_SIZE
  {
    (Reg(r, 10) * 256 + Reg(r, 3)) % 2048 * 64 + i
  }

  /** SCREEN 2 and 4: register bits that overlap the table mirror parts of it. */
  function WidePatternPlace(r: Registers, i: nat): (place: nat)
    ensures place < VRAM_SIZE
  {
    Reg(r, 4) / 4 % 16 * 8192 + And(Reg(r, 4) % 4, i / 2048 % 4) * 2048 + i % 2048
  }

  function WideColourPlace(r: Registers, i: nat): (place: nat)
    ensures place < VRAM_SIZE
  {
    var unit := Reg(r, 10) * 256 + Reg(r, 3);
    unit / 128 % 16 * 8192 + And(unit % 128, i / 64 % 128) * 64 + i % 64
  }

  /** Octet `i` of the sprite attributes. */
  function AttributePlace(r: Registers, spriteMode: nat, i: nat): (place: nat)
    ensures spriteMode == 2 || i < 0x80 ==> place < VRAM_SIZE
  {
    var unit := Reg(r, 11) * 256 + Reg(r, 5);
    if spriteMode == 2 then unit / 8 % 128 * 1024 + And(unit % 8, i / 128 % 8) * 128 + i % 128
    else unit % 1024 * 128 + i
  }

  function ShapePlace(r: Registers, i: nat): (place: nat)
    ensures i < 0x800 ==> place < VRAM_SIZE
  {
    Reg(r, 6) % 64 * 2048 + i
  }

  lemma NamePlaces(r: Registers, row: nat, column: nat)
    requires row < 32
    ensures column < 80 ==> At(Names(r, 12), row * 80 + column) == TextNamePlace(r, 80, row, column)
    ensures column < 40 ==> At(Names(r, 12), 0xC00 + row * 40 + column) == TextNamePlace(r, 40, row, column)
    ensures column < 32 ==> At(Names(r, 10), row * 32 + column) == NamePlace(r, row, column)
  {
    hide TableAddr, And;
    NoneShared();
    if column < 80 {
      WiredNumbers(Reg(r, 2), 10, 2, row * 80 + column, 1024, 4, 32);
      WiredNumbers(Reg(r, 2), 10, 2, 0xC00 + row * 40 + column, 1024, 4, 32);
      WiredNumbers(Reg(r, 2), 10, 0, row * 32 + column, 1024, 1, 128);
    }
  }

  lemma PatternPlaces(r: Registers, i: nat)
    ensures i < 0x800 ==> At(Patterns(r, 11), i) == PatternPlace(r, i)
    ensures i < 0x2000 ==> At(Patterns(r, 13), i) == WidePatternPlace(r, i)
    ensures i < 0x800 ==> At(SpritePatterns(r), i) == ShapePlace(r, i)
  {
    hide TableAddr, And;
    NoneShared();
    if i < 0x2000 {
      WiredNumbers(Reg(r, 4), 11, 0, i, 2048, 1, 64);
      WiredNumbers(Reg(r, 4), 11, 2, i, 2048, 4, 16);
      WiredNumbers(Reg(r, 6), 11, 0, i, 2048, 1, 64);
    }
  }

  lemma ColourPlaces(r: Registers, i: nat)
    ensures i < 0x40 ==> At(Colours(r, 6), i) == ColourPlace(r, i)
    ensures i < 0x200 ==> At(Colours(r, 9), i) == BlinkPlace(r, i)
    ensures i < 0x2000 ==> At(Colours(r, 13), i) == WideColourPlace(r, i)
  {
    hide TableAddr, And;
    NoneShared();
    var unit := Reg(r, 10) * 256 + Reg(r, 3);
    if i < 0x2000 {
      WiredNumbers(unit, 6, 0, i, 64, 1, 2048);
      WiredNumbers(unit, 6, 3, i, 64, 8, 256);
      WiredNumbers(unit, 6, 7, i, 64, 128, 16);
    }
  }

  lemma AttributePlaces(r: Registers, spriteMode: nat, i: nat)
    requires i < if spriteMode == 2 then 0x400 else 0x80
    ensures At(SpriteAttributes(r, spriteMode), i) == AttributePlace(r, spriteMode, i)
  {
    hide TableAddr, And;
    NoneShared();
    var unit := Reg(r, 11) * 256 + Reg(r, 5);
    if spriteMode == 2 {
      WiredNumbers(unit, 7, 3, i, 128, 8, 128);
    } else {
      assert Pow2(10) == 1024;
      WiredNumbers(unit, 7, 0, i, 128, 1, 1024);
    }
  }

  // ------------------------------------------------------------ what a screenshot needs

  /** The state a picture is drawn from, apart from video memory. */
  datatype Shot = Shot(mode: nat, regs: Registers, height: nat, page: Option<nat>, sprites: bool,
                       textWidth: Option<nat>)

  predicate Supported(mode: nat) {
    mode <= 8 || mode == 10 || mode == 11 || mode == 12
  }

  predicate Flag(b: Byte, weight: nat)
    requires weight > 0
  {
    b / weight % 2 == 1
  }

  /** The requested number of columns, or the one the mode register implies. */
  function TextColumns(s: Shot): nat {
    if s.textWidth.Some? && s.textWidth.value != 0 then s.textWidth.value
    else if Flag(s.regs[0], 4) then 80 else 40
  }

  function SpriteMode(mode: nat): nat {
    if mode == 1 || mode == 2 || mode == 3 then 1 else 2
  }

  /** Sprites are drawn unless the caller, text mode or the SPD bit says otherwise. */
  predicate DrawsSprites(s: Shot) {
    s.sprites && s.mode != 0 && !Flag(s.regs[8], 2)
  }

  function PageSize(mode: nat): nat {
    if mode == 5 || mode == 6 then 0x8000 else 0x1_0000
  }

  function Stride(mode: nat): nat {
    if mode == 5 || mode == 6 then 128 else 256
  }

  /** Start of the displayed page, or nothing when the caller names a page that does not exist. */
  function PageBase(s: Shot): (base: Option<nat>)
    ensures base.Some? ==> base.value + PageSize(s.mode) <= VRAM_SIZE
  {
    var pages := VRAM_SIZE / PageSize(s.mode);
    match s.page
    case Some(p) => if p < pages then Some(p * PageSize(s.mode)) else None
    case None =>
      if s.mode == 5 || s.mode == 6 then Some(Reg(s.regs, 2) / 0x20 % 4 * 0x8000)
      else Some(Reg(s.regs, 2) / 0x20 % 2 * 0x1_0000)
  }

  function Entries(t: Table, from: nat, to: nat): set<nat>
    requires Usable(t) && to <= 0x1_0000
  {
    set i | from <= i < to :: At(t, i)
  }

  function TextRows(s: Shot): nat {
    (s.height + 7) / 8
  }

  function CharacterAddresses(s: Shot): set<nat>
    requires s.height <= 256
  {
    var r := s.regs;
    if s.mode == 0 then
      (if TextColumns(s) == 40
       then Entries(Names(r, 12), 0xC00, 0xC00 + TextRows(s) * 40)
       else Entries(Names(r, 12), 0, TextRows(s) * 80) + Entries(Colours(r, 9), 0, TextRows(s) * 10))
      + Entries(Patterns(r, 11), 0, 0x800)
    else if s.mode == 1 then
      Entries(Names(r, 10), 0, 0x400) + Entries(Patterns(r, 11), 0, 0x800) + Entries(Colours(r, 6), 0, 0x40)
    else if s.mode == 3 then
      Entries(Names(r, 10), 0, 0x400) + Entries(Patterns(r, 11), 0, 0x800)
    else
      Entries(Names(r, 10), 0, 0x400) + Entries(Patterns(r, 13), 0, 0x2000) + Entries(Colours(r, 13), 0, 0x2000)
  }

  function SourceLine(s: Shot, y: nat): (line: nat)
    ensures line < 256
  {
    (y + Reg(s.regs, 23)) % 256
  }

  function BitmapAddresses(s: Shot, base: nat): set<nat> {
    set y: nat, k: nat | 0 <= y < s.height && 0 <= k < Stride(s.mode) :: LineAddress(s, base, y, k)
  }

  /** Byte `k` of the bitmap line shown at height `y`. */
  function LineAddress(s: Shot, base: nat, y: nat, k: nat): nat {
    base + SourceLine(s, y) * Stride(s.mode) + k
  }

  function SpriteAddresses(s: Shot): set<nat> {
    Entries(SpriteAttributes(s.regs, SpriteMode(s.mode)), 0, if SpriteMode(s.mode) == 2 then 0x400 else 0x80)
    + Entries(SpritePatterns(s.regs), 0, 0x800)
  }

  /** Every address a screenshot fetches; nothing when the page does not exist. */
  function Planned(s: Shot): Option<set<nat>>
    requires s.height <= 256
  {
    var sprites := if DrawsSprites(s) then SpriteAddresses(s) else {};
    if s.mode <= 4 then Some(CharacterAddresses(s) + sprites)
    else
      match PageBase(s)
      case None => None
      case Some(base) => Some(BitmapAddresses(s, base) + sprites)
  }

  lemma {:induction false} LineFits(line: nat, stride: nat, k: nat, page: nat)
    requires line < 256 && k < stride && stride * 256 == page
    ensures line * stride + k < page
  {
    assert line * stride <= 255 * stride;
  }

  lemma PlannedFits(s: Shot)
    requires s.height <= 256 && Planned(s).Some?
    ensures forall a <- Planned(s).value :: a < VRAM_SIZE
  {
    hide TableAddr;
    if s.mode > 4 {
      var base := PageBase(s).value;
      forall a | a in BitmapAddresses(s, base) ensures a < VRAM_SIZE {
        var y: nat, k: nat :| 0 <= y < s.height && 0 <= k < Stride(s.mode) && a == LineAddress(s, base, y, k);
        LineFits(SourceLine(s, y), Stride(s.mode), k, PageSize(s.mode));
      }
    }
  }

  // ------------------------------------------------------------ ranges

  datatype Range = Range(base: nat, size: nat)

  predicate In(a: nat, r: Range) {
    r.base <= a < r.base + r.size
  }

  ghost predicate Covered(a: nat, ranges: seq<Range>) {
    exists i :: 0 <= i < |ranges| && In(a, ranges[i])
  }

  /** Ascending, not empty, and with a gap between one range and the next: so also maximal. */
  predicate Separated(ranges: seq<Range>) {
    && (forall i | 0 <= i < |ranges| :: ranges[i].size > 0)
    && (forall i, j | 0 <= i < j < |ranges| :: ranges[i].base + ranges[i].size < ranges[j].base)
  }

  ghost predicate Covers(ranges: seq<Range>, addresses: set<nat>) {
    forall a: nat :: Covered(a, ranges) <==> a in addresses
  }

  predicate Ascending(xs: seq<nat>) {
    forall i, j | 0 <= i < j < |xs| :: xs[i] < xs[j]
  }

  /** The elements of a set in order. */
  method Sorted(addresses: set<nat>, limit: nat) returns (xs: seq<nat>)
    requires forall a <- addresses :: a < limit
    ensures Ascending(xs) && forall a :: a in xs <==> a in addresses
  {
    xs := [];
    for a := 0 to limit
      invariant Ascending(xs) && forall i | 0 <= i < |xs| :: xs[i] < a
      invariant forall b :: b in xs <==> b in addresses && b < a
    {
      if a in addresses {
        xs := xs + [a];
      }
    }
  }

  /** Joins neighbouring addresses into ranges: the exact cover, ascending, disjoint and maximal. */
  method Ranges(addresses: set<nat>, limit: nat) returns (ranges: seq<Range>)
    requires forall a <- addresses :: a < limit
    ensures Separated(ranges) && Covers(ranges, addresses)
  {
    ranges := [];
    var ordered := Sorted(addresses, limit);
    if ordered == [] {
      return;
    }
    var start, previous := ordered[0], ordered[0];
    FirstRange(ordered);
    for k := 1 to |ordered|
      invariant previous == ordered[k - 1] && start <= previous
      invariant Separated(ranges + [Range(start, previous - start + 1)])
      invariant forall a: nat ::
        Covered(a, ranges + [Range(start, previous - start + 1)]) <==> a in ordered[..k]
    {
      var address := ordered[k];
      var open := Range(start, previous - start + 1);
      assert ordered[..k + 1] == ordered[..k] + [address];
      if address != previous + 1 {
        CloseRange(ranges, open, address, ordered[..k]);
        ranges := ranges + [open];
        start := address;
      } else {
        GrowRange(ranges, open, ordered[..k]);
      }
      previous := address;
    }
    assert ordered[..|ordered|] == ordered;
    ranges := ranges + [Range(start, previous - start + 1)];
  }

  lemma FirstRange(ordered: seq<nat>)
    requires ordered != []
    ensures var one := [] + [Range(ordered[0], 1)];
            Separated(one) && forall a: nat :: Covered(a, one) <==> a in ordered[..1]
  {
    var one := [] + [Range(ordered[0], 1)];
    assert ordered[..1] == [ordered[0]];
    assert In(ordered[0], one[0]);
  }

  lemma CloseRange(ranges: seq<Range>, last: Range, address: nat, done: seq<nat>)
    requires Separated(ranges + [last]) && last.base + last.size < address
    requires forall a: nat :: Covered(a, ranges + [last]) <==> a in done
    ensures Separated(ranges + [last] + [Range(address, 1)])
    ensures forall a: nat :: Covered(a, ranges + [last] + [Range(address, 1)]) <==> a in done + [address]
  {
    var before, after := ranges + [last], ranges + [last] + [Range(address, 1)];
    forall a: nat ensures Covered(a, after) <==> a in done + [address] {
      if Covered(a, before) {
        var i :| 0 <= i < |before| && In(a, before[i]);
        assert after[i] == before[i];
      }
      if a == address {
        assert In(a, after[|before|]);
      }
      if Covered(a, after) {
        var i :| 0 <= i < |after| && In(a, after[i]);
        if i < |before| {
          assert In(a, before[i]);
        }
      }
    }
    forall i, j | 0 <= i < j < |after| ensures after[i].base + after[i].size < after[j].base {
      if j == |before| && i < |ranges| {
        assert before[i].base + before[i].size < before[|ranges|].base;
      } else if j < |before| {
        assert before[i].base + before[i].size < before[j].base;
      }
    }
  }

  lemma GrowRange(ranges: seq<Range>, last: Range, done: seq<nat>)
    requires Separated(ranges + [last])
    requires forall a: nat :: Covered(a, ranges + [last]) <==> a in done
    ensures var longer := ranges + [Range(last.base, last.size + 1)];
            && Separated(longer)
            && forall a: nat :: Covered(a, longer) <==> a in done + [last.base + last.size]
  {
    var before, after := ranges + [last], ranges + [Range(last.base, last.size + 1)];
    forall i, j | 0 <= i < j < |after| ensures after[i].base + after[i].size < after[j].base {
      assert before[i].base + before[i].size < before[j].base;
    }
    forall i | 0 <= i < |after| ensures after[i].size > 0 {
      assert before[i].size > 0;
    }
    forall a: nat ensures Covered(a, after) <==> a in done + [last.base + last.size] {
      if Covered(a, before) {
        var i :| 0 <= i < |before| && In(a, before[i]);
        assert In(a, after[i]);
      }
      if a == last.base + last.size {
        assert In(a, after[|ranges|]);
      }
      if Covered(a, after) {
        var i :| 0 <= i < |after| && In(a, after[i]);
        if a != last.base + last.size {
          assert In(a, before[i]);
        }
      }
    }
  }

  lemma FirstIsCovered(ranges: seq<Range>)
    requires Separated(ranges) && ranges != []
    ensures Covered(ranges[0].base, ranges)
  {
    assert In(ranges[0].base, ranges[0]);
  }

  /** There is only one such list of ranges for a set of addresses. */
  lemma {:induction false} RangesAreUnique(a: seq<Range>, b: seq<Range>)
    requires Separated(a) && Separated(b)
    requires forall x: nat :: Covered(x, a) <==> Covered(x, b)
    ensures a == b
    decreases |a|
  {
    if a == [] {
      if b != [] {
        FirstIsCovered(b);
        assert false;
      }
    } else {
      FirstIsCovered(a);
      assert b != [];
      FirstRangeAgrees(a, b);
      TailCovers(a);
      TailCovers(b);
      RangesAreUnique(a[1..], b[1..]);
      assert a == [a[0]] + a[1..] && b == [b[0]] + b[1..];
    }
  }

  lemma TailCovers(ranges: seq<Range>)
    requires Separated(ranges) && ranges != []
    ensures Separated(ranges[1..])
    ensures forall x: nat :: Covered(x, ranges[1..]) <==> Covered(x, ranges) && !In(x, ranges[0])
  {
    var tail := ranges[1..];
    forall x: nat ensures Covered(x, tail) <==> Covered(x, ranges) && !In(x, ranges[0]) {
      if Covered(x, tail) {
        var i :| 0 <= i < |tail| && In(x, tail[i]);
        assert In(x, ranges[i + 1]);
      }
      if Covered(x, ranges) && !In(x, ranges[0]) {
        var i :| 0 <= i < |ranges| && In(x, ranges[i]);
        assert In(x, tail[i - 1]);
      }
    }
  }

  lemma FirstRangeAgrees(a: seq<Range>, b: seq<Range>)
    requires Separated(a) && Separated(b) && a != [] && b != []
    requires forall x: nat :: Covered(x, a) <==> Covered(x, b)
    ensures a[0] == b[0]
  {
    StartsAtFirst(a);
    StartsAtFirst(b);
    assert a[0].base == b[0].base;
    EndsAtGap(a);
    EndsAtGap(b);
    var endA, endB := a[0].base + a[0].size, b[0].base + b[0].size;
    assert !Covered(endA, b) && !Covered(endB, a);
    assert !In(endA, b[0]) && !In(endB, a[0]);
  }

  lemma StartsAtFirst(a: seq<Range>)
    requires Separated(a) && a != []
    ensures Covered(a[0].base, a) && forall x: nat | Covered(x, a) :: a[0].base <= x
  {
    assert In(a[0].base, a[0]);
  }

  lemma EndsAtGap(a: seq<Range>)
    requires Separated(a) && a != []
    ensures !Covered(a[0].base + a[0].size, a)
  {
  }

  // ------------------------------------------------------------ the captured image

  /** Equal wherever the plan looks. */
  predicate Agree(v: Vram, w: Vram, addresses: set<nat>) {
    forall a <- addresses | a < VRAM_SIZE :: v[a] == w[a]
  }

  /** Fetches the planned ranges into a memory image that is zero everywhere else. */
  method CaptureVram(target: Vram, addresses: set<nat>) returns (image: Vram)
    requires forall a <- addresses :: a < VRAM_SIZE
    ensures Agree(image, target, addresses)
    ensures forall a | 0 <= a < VRAM_SIZE && a !in addresses :: image[a] == 0
  {
    var memory := new Byte[VRAM_SIZE](_ => 0);
    var ranges := Ranges(addresses, VRAM_SIZE);
    for i := 0 to |ranges|
      invariant fresh(memory)
      invariant forall a | 0 <= a < VRAM_SIZE ::
        memory[a] == if Covered(a, ranges[..i]) then target[a] else 0
    {
      var r := ranges[i];
      RangeFits(ranges, i, addresses);
      assert ranges[..i + 1] == ranges[..i] + [r];
      for k := 0 to r.size
        invariant forall a | 0 <= a < VRAM_SIZE ::
          memory[a] == if Covered(a, ranges[..i]) || r.base <= a < r.base + k then target[a] else 0
      {
        memory[r.base + k] := target[r.base + k];
      }
      forall a: nat | a < VRAM_SIZE ensures Covered(a, ranges[..i + 1]) <==> Covered(a, ranges[..i]) || In(a, r) {
        CoveredByOneMore(a, ranges[..i], r);
      }
    }
    assert ranges[..|ranges|] == ranges;
    image := memory[..];
  }

  lemma RangeFits(ranges: seq<Range>, i: nat, addresses: set<nat>)
    requires i < |ranges| && Separated(ranges) && Covers(ranges, addresses)
    requires forall a <- addresses :: a < VRAM_SIZE
    ensures ranges[i].base + ranges[i].size <= VRAM_SIZE
  {
    var last := ranges[i].base + ranges[i].size - 1;
    assert In(last, ranges[i]) && Covered(last, ranges);
  }

  lemma CoveredByOneMore(a: nat, ranges: seq<Range>, r: Range)
    ensures Covered(a, ranges + [r]) <==> Covered(a, ranges) || In(a, r)
  {
    var longer := ranges + [r];
    if Covered(a, ranges) {
      var i :| 0 <= i < |ranges| && In(a, ranges[i]);
      assert In(a, longer[i]);
    }
    if In(a, r) {
      assert In(a, longer[|ranges|]);
    }
    if Covered(a, longer) {
      var i :| 0 <= i < |longer| && In(a, longer[i]);
      assert i < |ranges| ==> In(a, ranges[i]);
    }
  }
}

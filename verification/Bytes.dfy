/** The octet, as an integer and as a bit vector. */
module Octets {

  type Byte = x: int | 0 <= x < 0x100

  /** The eight bits of an octet, high nibble first. */
  function Bits(b: Byte): bv8 {
    Join((b / 16) as bv4, (b % 16) as bv4)
  }

  /** The octet that eight bits spell. */
  function FromBits(v: bv8): Byte {
    16 * (High(v) as int) + (Low(v) as int)
  }

  function Join(high: bv4, low: bv4): bv8 {
    ((high as bv8) << 4) | (low as bv8)
  }

  function High(v: bv8): bv4 {
    (v >> 4) as bv4
  }

  function Low(v: bv8): bv4 {
    (v & 0xF) as bv4
  }

  lemma NibbleRoundTrip(n: int)
    requires 0 <= n < 16
    ensures (n as bv4) as int == n
  {
  }

  lemma NibbleBitsRoundTrip(v: bv4)
    ensures (v as int) as bv4 == v
  {
  }

  lemma JoinSplits(high: bv4, low: bv4)
    ensures High(Join(high, low)) == high && Low(Join(high, low)) == low
  {
  }

  lemma SplitJoins(v: bv8)
    ensures Join(High(v), Low(v)) == v
  {
  }

  lemma OctetRoundTrip(b: Byte)
    ensures FromBits(Bits(b)) == b
  {
    hide Join, High, Low;
    JoinSplits((b / 16) as bv4, (b % 16) as bv4);
    NibbleRoundTrip(b / 16);
    NibbleRoundTrip(b % 16);
  }

  lemma BitsRoundTrip(v: bv8)
    ensures Bits(FromBits(v)) == v
  {
    hide Join, High, Low;
    var h, l := High(v) as int, Low(v) as int;
    assert (16 * h + l) / 16 == h && (16 * h + l) % 16 == l;
    NibbleBitsRoundTrip(High(v));
    NibbleBitsRoundTrip(Low(v));
    SplitJoins(v);
  }
}

/** Little-endian words and the option and result types every other module uses. */
module Bytes {
  import opened Octets

  type Word = x: int | 0 <= x < 0x1_0000

  type Long = x: int | 0 <= x < 0x1_0000_0000

  datatype Option<+T> = None | Some(value: T)

  datatype Result<+T, +E> = Ok(value: T) | Err(error: E)

  /** A choice made by the world outside: a peer, a user, the power supply. */
  method Anything<T(0)>() returns (x: T) {
    x := *;
  }

  /** The word that `lo`, `hi` spell in little-endian order. */
  function MakeWord(lo: Byte, hi: Byte): Word {
    lo + 0x100 * hi
  }

  function Le16(w: Word): (s: seq<Byte>)
    ensures |s| == 2
  {
    [w % 0x100, w / 0x100]
  }

  function Le32(n: Long): (s: seq<Byte>)
    ensures |s| == 4
  {
    Le16(n % 0x1_0000) + Le16(n / 0x1_0000)
  }

  function WordAt(s: seq<Byte>, at: nat): Word
    requires at + 2 <= |s|
  {
    MakeWord(s[at], s[at + 1])
  }

  function LongAt(s: seq<Byte>, at: nat): Long
    requires at + 4 <= |s|
  {
    WordAt(s, at) + 0x1_0000 * WordAt(s, at + 2)
  }

  lemma Le16RoundTrip(w: Word)
    ensures MakeWord(Le16(w)[0], Le16(w)[1]) == w
  {
  }

  lemma WordRoundTrip(lo: Byte, hi: Byte)
    ensures Le16(MakeWord(lo, hi)) == [lo, hi]
  {
  }

  lemma Le32RoundTrip(n: Long)
    ensures LongAt(Le32(n), 0) == n
  {
    Le16RoundTrip(n % 0x1_0000);
    Le16RoundTrip(n / 0x1_0000);
  }

  lemma HalvesOfLong(low: Word, high: Word)
    ensures (low + 0x1_0000 * high) % 0x1_0000 == low
    ensures (low + 0x1_0000 * high) / 0x1_0000 == high
  {
  }

  lemma HalvesSpell(s: seq<Byte>)
    requires |s| == 4
    ensures Le16(WordAt(s, 0)) == s[..2]
    ensures Le16(WordAt(s, 2)) == s[2..]
  {
    hide MakeWord, Le16;
    WordRoundTrip(s[0], s[1]);
    WordRoundTrip(s[2], s[3]);
  }

  lemma LongRoundTrip(s: seq<Byte>)
    requires |s| == 4
    ensures Le32(LongAt(s, 0)) == s
  {
    hide Le16, WordAt;
    HalvesOfLong(WordAt(s, 0), WordAt(s, 2));
    HalvesSpell(s);
    assert s[..2] + s[2..] == s;
  }
}

/**
 * The resident agent's build: three links of one program are cross-checked, one relocatable
 * file is built from them, and the fixed-driver variants are patched into copies of it.
 */
module AgentTsr {
  import opened Octets
  import opened Bytes
  import opened Relocation
  import opened MemManTsr

  const TRANSPORT_TEMPLATE: Byte := 0xFE
  const TRANSPORT_8251: Byte := 0
  const TRANSPORT_16C550: Byte := 1
  const TRANSPORT_UNAPI: Byte := 2
  const DIVISOR_115200: Byte := 1
  const DIVISOR_57600: Byte := 2

  datatype LinkedImage = LinkedImage(origin: int, data: seq<Byte>)

  /** Label offsets from the primary origin. */
  datatype Offsets = Offsets(
    transport: int, divisor: int, keyi: int, timi: int, consolePut: int, consoleGet: int,
    crunch: int, kill: int, talk: int, residentEnd: int)

  datatype AgentError =
    | EmptyPayload | SizesDiffer | BeyondPage1 | OutsideResidentCode
    | NoTransportTemplate | NoDivisorTemplate
    | InferenceFailed(cause: InferError) | DeltasDisagree | BuildFailed(reason: BuildError)
    | PatchMissesTransport | PatchMissesDivisor | DriversDiffer

  datatype Drivers = Drivers(
    template: seq<Byte>, uart8251: seq<Byte>, uart16550: seq<Byte>, uart115k: seq<Byte>, unapi: seq<Byte>,
    transportAt: nat, divisorAt: nat, relocations: seq<nat>)

  predicate AllResident(o: Offsets) {
    && 0 <= o.transport < o.residentEnd && 0 <= o.divisor < o.residentEnd
    && 0 <= o.keyi < o.residentEnd && 0 <= o.timi < o.residentEnd
    && 0 <= o.consolePut < o.residentEnd && 0 <= o.consoleGet < o.residentEnd
    && 0 <= o.crunch < o.residentEnd
    && 0 <= o.kill < o.residentEnd && 0 <= o.talk < o.residentEnd
  }

  /** The first complaint about the three links, in the order they are checked. */
  function LinkFault(a: LinkedImage, b: LinkedImage, c: LinkedImage, o: Offsets): Option<AgentError> {
    if a.data == [] then Some(EmptyPayload)
    else if |a.data| != |b.data| || |a.data| != |c.data| then Some(SizesDiffer)
    else if b.origin + |b.data| > 0x8000 || c.origin + |c.data| > 0x8000 then Some(BeyondPage1)
    else if !AllResident(o) || o.residentEnd > |a.data| then Some(OutsideResidentCode)
    else if a.data[o.transport] != TRANSPORT_TEMPLATE then Some(NoTransportTemplate)
    else if a.data[o.divisor] != DIVISOR_57600 then Some(NoDivisorTemplate)
    else None
  }

  function SpecFor(a: LinkedImage, b: LinkedImage, o: Offsets, pinned: seq<nat>): BuildSpec {
    BuildSpec(
      "MSXAI MCP1", a.origin, b.origin - a.origin, o.residentEnd, o.kill, o.talk,
      [Hook(0xFD9A, o.keyi), Hook(0xFD9F, o.timi), Hook(0xFDA4, o.consolePut),
       Hook(0xFDC2, o.consoleGet), Hook(0xFF20, o.crunch)],
      128, Some(pinned))
  }

  /** Where a payload offset lies in the built file. */
  function FileOffset(relocations: seq<nat>, offset: nat): nat {
    HEADER_SIZE + 2 + 2 * |relocations| + offset
  }

  /** The file a build of `image` produces. */
  function Built(image: seq<Byte>, spec: BuildSpec, w: seq<nat>): seq<Byte>
    requires Buildable(image, spec, w)
  {
    IntendedIsWritable(image, spec, w);
    File(Intended(image, spec, w))
  }

  lemma StillBuildable(image: seq<Byte>, spec: BuildSpec, w: seq<nat>, at: nat, v: Byte)
    requires Buildable(image, spec, w) && at < |image|
    ensures Buildable(image[at := v], spec, w) && Table(w, |image|)
  {
  }

  /** Patching a payload byte of the file is building the file from the patched payload. */
  lemma PatchCommutes(image: seq<Byte>, spec: BuildSpec, w: seq<nat>, at: nat, v: Byte)
    requires Buildable(image, spec, w) && at < |image|
    ensures Buildable(image[at := v], spec, w) && FileOffset(w, at) < |Built(image, spec, w)|
    ensures Built(image, spec, w)[FileOffset(w, at)] == image[at]
    ensures Built(image, spec, w)[FileOffset(w, at) := v] == Built(image[at := v], spec, w)
  {
    hide FlatWords, EncodeHeader, HookWords, Padded, Le16;
    var c, p := Intended(image, spec, w), Intended(image[at := v], spec, w);
    IntendedIsWritable(image, spec, w);
    var before := EncodeHeader(c.fields) + Le16(2 + 2 * |c.relocations|) + FlatWords(c.relocations);
    var after := Le16(2 + 2 * |c.hooks|) + FlatWords(c.hooks) + Zeros(c.padding);
    assert File(c) == before + image + after;
    assert File(p) == before + image[at := v] + after;
    assert |before| + at == FileOffset(w, at);
  }

  lemma LoadBuilt(image: seq<Byte>, spec: BuildSpec, w: seq<nat>, at: int)
    requires Buildable(image, spec, w)
    ensures Load(Built(image, spec, w), at) == Some(Relocate(image, at - spec.origin, w))
  {
    hide File, Load, Relocate, Intended;
    LoadRelocates(image, spec, w, at);
  }

  // ------------------------------------------------------------ patching before relocating

  /** The bytes of `patched` at the given offsets, those of `base` elsewhere. */
  function Overlay(base: seq<Byte>, patched: seq<Byte>, at: set<nat>): (r: seq<Byte>)
    requires |patched| == |base|
    ensures |r| == |base| && forall i | 0 <= i < |r| :: r[i] == if i in at then patched[i] else base[i]
  {
    seq(|base|, i requires 0 <= i < |base| => if i in at then patched[i] else base[i])
  }

  lemma Digits(delta: int)
    ensures delta == delta % 0x100 + 0x100 * (delta / 0x100 % 0x100) + 0x1_0000 * (delta / 0x100 / 0x100)
  {
  }

  lemma WrapDrops(low: Byte, high: Byte, n: int)
    ensures Wrap(low + 0x100 * high + 0x1_0000 * n) == MakeWord(low, high)
  {
  }

  /** Relocation adds byte by byte, with one carry. */
  lemma RelocatedBytes(lo: Byte, hi: Byte, delta: int)
    ensures var dl, dh := delta % 0x100, delta / 0x100 % 0x100;
            var carry := (lo + dl) / 0x100;
            Wrap(MakeWord(lo, hi) + delta) == MakeWord((lo + dl) % 0x100, (hi + dh + carry) % 0x100)
  {
    hide Wrap;
    var dl, dh, k := delta % 0x100, delta / 0x100 % 0x100, delta / 0x100 / 0x100;
    Digits(delta);
    var low := lo + dl;
    var high := hi + dh + low / 0x100;
    WrapDrops(low % 0x100, high % 0x100, high / 0x100 + k);
    assert MakeWord(lo, hi) + delta == low + 0x100 * (hi + dh) + 0x1_0000 * k;
    assert low == low % 0x100 + 0x100 * (low / 0x100);
    assert high == high % 0x100 + 0x100 * (high / 0x100);
  }

  lemma SameWord(lo: Byte, hi: Byte, low: Byte, high: Byte)
    ensures MakeWord(lo, hi) == MakeWord(low, high) <==> lo == low && hi == high
  {
  }

  lemma SplitWord(low: Byte, high: Byte)
    ensures MakeWord(low, high) % 0x100 == low && MakeWord(low, high) / 0x100 == high
  {
  }

  /** A byte comes out of an addition unchanged only if a multiple of 256 was added. */
  lemma AddsNothing(b: Byte, d: nat)
    requires d <= 0x100
    ensures (b + d) % 0x100 == b <==> d == 0 || d == 0x100
  {
  }

  /**
   * One word, with either byte patched: patching before and after relocation agree exactly if
   * relocation leaves the patched bytes of the original word as they are.
   */
  lemma PatchedWord(lo: Byte, hi: Byte, delta: int, x: Byte, y: Byte, inLow: bool, inHigh: bool)
    ensures var moved := Wrap(MakeWord(lo, hi) + delta);
            var patched := MakeWord(if inLow then x else lo, if inHigh then y else hi);
            Wrap(patched + delta)
              == MakeWord(if inLow then x else moved % 0x100, if inHigh then y else moved / 0x100)
            <==> (inLow ==> moved % 0x100 == lo) && (inHigh ==> moved / 0x100 == hi)
  {
    hide MakeWord, Wrap;
    var dl, dh := delta % 0x100, delta / 0x100 % 0x100;
    var u, v := if inLow then x else lo, if inHigh then y else hi;
    RelocatedBytes(lo, hi, delta);
    RelocatedBytes(u, v, delta);
    SplitWord((lo + dl) % 0x100, (hi + dh + (lo + dl) / 0x100) % 0x100);
    PatchedBytes(lo, hi, dl, dh, u, v, inLow, inHigh);
    SameWord((u + dl) % 0x100, (v + dh + (u + dl) / 0x100) % 0x100,
             if inLow then x else (lo + dl) % 0x100, if inHigh then y else (hi + dh + (lo + dl) / 0x100) % 0x100);
  }

  lemma PatchedBytes(lo: Byte, hi: Byte, dl: Byte, dh: Byte, u: Byte, v: Byte, inLow: bool, inHigh: bool)
    requires (!inLow ==> u == lo) && (!inHigh ==> v == hi)
    ensures var low, high := (lo + dl) % 0x100, (hi + dh + (lo + dl) / 0x100) % 0x100;
            (u + dl) % 0x100 == (if inLow then u else low)
            && (v + dh + (u + dl) / 0x100) % 0x100 == (if inHigh then v else high)
            <==> (inLow ==> low == lo) && (inHigh ==> high == hi)
  {
    AddsNothing(lo, dl);
    AddsNothing(u, dl);
    if !inLow || dl == 0 {
      var carry := (lo + dl) / 0x100;
      assert (u + dl) / 0x100 == carry;
      AddsNothing(hi, dh + carry);
      AddsNothing(v, dh + carry);
    }
  }

  lemma PatchedWordAt(image: seq<Byte>, patched: seq<Byte>, at: set<nat>, delta: int, w: seq<nat>, i: nat)
    requires Table(w, |image|) && |patched| == |image| && i < |w|
    requires forall k | 0 <= k < |image| && k !in at :: patched[k] == image[k]
    ensures var moved := Relocate(image, delta, w);
            WordAt(Relocate(patched, delta, w), w[i]) == WordAt(Overlay(moved, patched, at), w[i])
            <==> (w[i] in at ==> moved[w[i]] == image[w[i]])
                 && (w[i] + 1 in at ==> moved[w[i] + 1] == image[w[i] + 1])
  {
    hide Relocate, Wrap, MakeWord, Overlay;
    var p, moved := w[i], Relocate(image, delta, w);
    RelocateAt(image, delta, w, p);
    RelocateAt(patched, delta, w, p);
    SplitWord(moved[p], moved[p + 1]);
    var after := Overlay(moved, patched, at);
    assert WordAt(after, p) == MakeWord(after[p], after[p + 1]);
    PatchedWord(image[p], image[p + 1], delta, patched[p], patched[p + 1], p in at, p + 1 in at);
  }

  /**
   * Bytes patched before relocation come out as if they had been patched after it exactly if
   * relocation leaves those bytes of the original alone.
   */
  lemma RelocatePatched(image: seq<Byte>, patched: seq<Byte>, at: set<nat>, delta: int, w: seq<nat>)
    requires Table(w, |image|) && |patched| == |image| && forall k <- at :: k < |image|
    requires forall k | 0 <= k < |image| && k !in at :: patched[k] == image[k]
    ensures var moved := Relocate(image, delta, w);
            Relocate(patched, delta, w) == Overlay(moved, patched, at)
            <==> forall k <- at :: moved[k] == image[k]
  {
    hide Relocate, WordAt, CoveredBy, Overlay;
    var moved, before := Relocate(image, delta, w), Relocate(patched, delta, w);
    var after := Overlay(moved, patched, at);
    RelocateEverywhere(image, delta, w);
    RelocateEverywhere(patched, delta, w);
    forall i | 0 <= i < |w|
      ensures WordAt(before, w[i]) == WordAt(after, w[i])
              <==> (w[i] in at ==> moved[w[i]] == image[w[i]])
                   && (w[i] + 1 in at ==> moved[w[i] + 1] == image[w[i] + 1])
    {
      PatchedWordAt(image, patched, at, delta, w, i);
    }
    if forall k <- at :: moved[k] == image[k] {
      SameWordsSameImage(before, after, w);
    }
    if before == after {
      forall k <- at ensures moved[k] == image[k] {
        if CoveredBy(k, w) {
          var i := CoveringWord(k, w);
          assert WordAt(before, w[i]) == WordAt(after, w[i]);
        }
      }
    }
  }

  lemma CoveringWord(at: nat, w: seq<nat>) returns (i: nat)
    requires CoveredBy(at, w)
    ensures i < |w| && (at == w[i] || at == w[i] + 1)
  {
    i :| 0 <= i < |w| && w[i] <= at < w[i] + 2;
  }

  /** Loaded at its origin, the file is that link of the program. */
  ghost predicate LoadsAs(file: seq<Byte>, image: LinkedImage) {
    Load(file, image.origin) == Some(image.data)
  }

  /**
   * A driver loads as the primary link with one byte replaced.  It loads as another link with that
   * byte replaced if and only if the two links agree on the byte in the first place.
   */
  ghost predicate DriverLoads(file: seq<Byte>, a: LinkedImage, c: LinkedImage, at: nat, v: Byte) {
    && |c.data| == |a.data| && at < |a.data|
    && Load(file, a.origin) == Some(a.data[at := v])
    && (Load(file, c.origin) == Some(c.data[at := v]) <==> c.data[at] == a.data[at])
  }

  /** A payload relocated to another link's origin, with one byte patched first. */
  lemma PatchedPayloadRelocates(a: LinkedImage, c: LinkedImage, w: seq<nat>, at: nat, v: Byte)
    requires Table(w, |a.data|) && at < |a.data|
    requires Explains(a.data, c.data, a.origin, c.origin - a.origin, w)
    ensures |c.data| == |a.data|
    ensures Relocate(a.data[at := v], 0, w) == a.data[at := v]
    ensures Relocate(a.data[at := v], c.origin - a.origin, w) == c.data[at := v] <==> c.data[at] == a.data[at]
  {
    hide Relocate, IsRelocatable;
    RelocateByZero(a.data[at := v], w);
    ExplanationRelocates(a.data, c.data, a.origin, c.origin - a.origin, w);
    RelocatePatched(a.data, a.data[at := v], {at}, c.origin - a.origin, w);
    assert Overlay(c.data, a.data[at := v], {at}) == c.data[at := v];
    assert (forall k <- {at} :: c.data[k] == a.data[k]) <==> c.data[at] == a.data[at];
  }

  /** The same with two bytes. */
  lemma TwicePatchedRelocates(a: LinkedImage, c: LinkedImage, w: seq<nat>, t: nat, x: Byte, v: nat, y: Byte)
    requires Table(w, |a.data|) && t < |a.data| && v < |a.data| && t != v
    requires Explains(a.data, c.data, a.origin, c.origin - a.origin, w)
    ensures |c.data| == |a.data|
    ensures Relocate(a.data[t := x][v := y], c.origin - a.origin, w) == c.data[t := x][v := y]
            <==> c.data[t] == a.data[t] && c.data[v] == a.data[v]
  {
    hide Relocate, IsRelocatable;
    var patched := a.data[t := x][v := y];
    ExplanationRelocates(a.data, c.data, a.origin, c.origin - a.origin, w);
    RelocatePatched(a.data, patched, {t, v}, c.origin - a.origin, w);
    assert Overlay(c.data, patched, {t, v}) == c.data[t := x][v := y];
    assert (forall k <- {t, v} :: c.data[k] == a.data[k]) <==> c.data[t] == a.data[t] && c.data[v] == a.data[v];
  }

  lemma DriverIsPatchedBuild(a: LinkedImage, c: LinkedImage, spec: BuildSpec, w: seq<nat>, at: nat, v: Byte)
    requires spec.origin == a.origin && Buildable(a.data, spec, w) && at < |a.data|
    requires Explains(a.data, c.data, a.origin, c.origin - a.origin, w)
    ensures FileOffset(w, at) < |Built(a.data, spec, w)|
    ensures Built(a.data, spec, w)[FileOffset(w, at)] == a.data[at]
    ensures DriverLoads(Built(a.data, spec, w)[FileOffset(w, at) := v], a, c, at, v)
    ensures IsBuild(Built(a.data, spec, w)[FileOffset(w, at) := v], a.data[at := v], spec, w)
  {
    hide Built, Load, Relocate, Explains, Buildable, Table;
    StillBuildable(a.data, spec, w, at, v);
    PatchCommutes(a.data, spec, w, at, v);
    LoadBuilt(a.data[at := v], spec, w, a.origin);
    LoadBuilt(a.data[at := v], spec, w, c.origin);
    PatchedPayloadRelocates(a, c, w, at, v);
  }

  lemma PatchedTwice(a: LinkedImage, c: LinkedImage, spec: BuildSpec, w: seq<nat>, t: nat, v: nat)
    requires spec.origin == a.origin && Buildable(a.data, spec, w) && t < |a.data| && v < |a.data| && t != v
    requires Explains(a.data, c.data, a.origin, c.origin - a.origin, w)
    ensures FileOffset(w, t) < |Built(a.data, spec, w)| && FileOffset(w, v) < |Built(a.data, spec, w)|
    ensures var once := Built(a.data, spec, w)[FileOffset(w, t) := TRANSPORT_16C550];
            && FastDriverLoads(once[FileOffset(w, v) := DIVISOR_115200], a, c, t, v)
            && IsBuild(once[FileOffset(w, v) := DIVISOR_115200],
                       a.data[t := TRANSPORT_16C550][v := DIVISOR_115200], spec, w)
  {
    hide Built, Load, Relocate, Buildable, Table, Explains;
    var once := a.data[t := TRANSPORT_16C550];
    var twice := once[v := DIVISOR_115200];
    PatchCommutes(a.data, spec, w, t, TRANSPORT_16C550);
    PatchCommutes(a.data, spec, w, v, DIVISOR_115200);
    PatchCommutes(once, spec, w, v, DIVISOR_115200);
    LoadBuilt(twice, spec, w, a.origin);
    LoadBuilt(twice, spec, w, c.origin);
    StillBuildable(a.data, spec, w, t, TRANSPORT_16C550);
    StillBuildable(once, spec, w, v, DIVISOR_115200);
    RelocateByZero(twice, w);
    TwicePatchedRelocates(a, c, w, t, TRANSPORT_16C550, v, DIVISOR_115200);
  }

  /** Every offset at which two files differ. */
  function Differing(x: seq<Byte>, y: seq<Byte>): set<nat>
    requires |x| == |y|
  {
    set i: nat | i < |x| && x[i] != y[i]
  }

  lemma OneDifference(file: seq<Byte>, at: nat, x: Byte, y: Byte)
    requires at < |file| && x != y
    ensures Differing(file[at := x], file[at := y]) == {at}
  {
    assert at in Differing(file[at := x], file[at := y]);
  }

  /**
   * The header and the hook table of a built file, octet by octet: the name, the entry points and
   * the five hooks, each with its own handler, around the given payload.
   */
  predicate Resident(file: seq<Byte>, payload: seq<Byte>, origin: int, o: Offsets, w: seq<nat>) {
    var hooks := 40 + 2 * |w| + |payload|;
    && |file| >= hooks + 20 && |file| % 128 == 0
    && file[..9] == [0x4D, 0x53, 0x54, 0x20, 0x54, 0x53, 0x52, 0x0D, 0x0A]
    && NameSpelled(file, "MSXAI MCP1")
    && file[21] == 0x1A && Spells(file, 22, 3)
    && Spells(file, 24, origin)
    && Spells(file, 26, origin + o.residentEnd)
    && Spells(file, 28, origin + o.kill)
    && Spells(file, 30, origin + o.talk)
    && Spells(file, 32, o.residentEnd)
    && Spells(file, 34, |payload| - o.residentEnd)
    && Spells(file, 36, 2 + 2 * |w|)
    && (forall i | 0 <= i < |w| :: Spells(file, 38 + 2 * i, origin + w[i]))
    && file[38 + 2 * |w|..38 + 2 * |w| + |payload|] == payload
    && Spells(file, hooks - 2, 22)
    && Spells(file, hooks, 0xFD9A) && Spells(file, hooks + 2, origin + o.keyi)
    && Spells(file, hooks + 4, 0xFD9F) && Spells(file, hooks + 6, origin + o.timi)
    && Spells(file, hooks + 8, 0xFDA4) && Spells(file, hooks + 10, origin + o.consolePut)
    && Spells(file, hooks + 12, 0xFDC2) && Spells(file, hooks + 14, origin + o.consoleGet)
    && Spells(file, hooks + 16, 0xFF20) && Spells(file, hooks + 18, origin + o.crunch)
    && forall k | hooks + 20 <= k < |file| :: file[k] == 0
  }

  lemma LaidOutIsResident(file: seq<Byte>, payload: seq<Byte>, a: LinkedImage, b: LinkedImage, o: Offsets,
                          w: seq<nat>)
    requires LaidOut(file, payload, SpecFor(a, b, o, w), w)
    ensures Resident(file, payload, a.origin, o, w)
  {
    hide Spells, NameSpelled;
    var spec, at := SpecFor(a, b, o, w), 40 + 2 * |w| + |payload|;
    assert HooksLaidOut(file, at, spec.origin, spec.hooks);
    assert Spells(file, at + 4 * 0, spec.hooks[0].address) && Spells(file, at + 4 * 1, spec.hooks[1].address);
    assert Spells(file, at + 4 * 2, spec.hooks[2].address) && Spells(file, at + 4 * 3, spec.hooks[3].address);
    assert Spells(file, at + 4 * 4, spec.hooks[4].address);
  }

  lemma BuiltIsResident(payload: seq<Byte>, a: LinkedImage, b: LinkedImage, o: Offsets, w: seq<nat>)
    requires Buildable(payload, SpecFor(a, b, o, w), w)
    ensures Resident(Built(payload, SpecFor(a, b, o, w), w), payload, a.origin, o, w)
  {
    hide LaidOut, Buildable, Resident, File, Intended;
    FileIsLaidOut(payload, SpecFor(a, b, o, w), w);
    LaidOutIsResident(Built(payload, SpecFor(a, b, o, w), w), payload, a, b, o, w);
  }

  /** The five files differ in their payloads only, and there only in the two patched bytes. */
  predicate ResidentFiles(d: Drivers, a: LinkedImage, o: Offsets, t: nat, v: nat)
    requires t < |a.data| && v < |a.data|
  {
    && Resident(d.template, a.data, a.origin, o, d.relocations)
    && Resident(d.uart8251, a.data[t := TRANSPORT_8251], a.origin, o, d.relocations)
    && Resident(d.uart16550, a.data[t := TRANSPORT_16C550], a.origin, o, d.relocations)
    && Resident(d.unapi, a.data[t := TRANSPORT_UNAPI], a.origin, o, d.relocations)
    && Resident(d.uart115k, a.data[t := TRANSPORT_16C550][v := DIVISOR_115200], a.origin, o, d.relocations)
  }

  /** The files of a build, as builds of the patched payloads. */
  ghost predicate PatchedBuilds(d: Drivers, a: LinkedImage, spec: BuildSpec, w: seq<nat>, t: nat, v: nat) {
    && t < |a.data| && v < |a.data| && d.relocations == w
    && IsBuild(d.template, a.data, spec, w)
    && IsBuild(d.uart8251, a.data[t := TRANSPORT_8251], spec, w)
    && IsBuild(d.uart16550, a.data[t := TRANSPORT_16C550], spec, w)
    && IsBuild(d.unapi, a.data[t := TRANSPORT_UNAPI], spec, w)
    && IsBuild(d.uart115k, a.data[t := TRANSPORT_16C550][v := DIVISOR_115200], spec, w)
  }

  ghost predicate IsBuild(file: seq<Byte>, payload: seq<Byte>, spec: BuildSpec, w: seq<nat>) {
    Buildable(payload, spec, w) && file == Built(payload, spec, w)
  }

  lemma BuildsAreResident(d: Drivers, a: LinkedImage, b: LinkedImage, o: Offsets, w: seq<nat>, t: nat, v: nat)
    requires PatchedBuilds(d, a, SpecFor(a, b, o, w), w, t, v)
    ensures ResidentFiles(d, a, o, t, v)
  {
    hide Buildable, Resident, Built;
    BuiltIsResident(a.data, a, b, o, w);
    BuiltIsResident(a.data[t := TRANSPORT_8251], a, b, o, w);
    BuiltIsResident(a.data[t := TRANSPORT_16C550], a, b, o, w);
    BuiltIsResident(a.data[t := TRANSPORT_UNAPI], a, b, o, w);
    BuiltIsResident(a.data[t := TRANSPORT_16C550][v := DIVISOR_115200], a, b, o, w);
  }

  /** What the finished build promises about its five files. */
  ghost predicate GoodDrivers(d: Drivers, a: LinkedImage, b: LinkedImage, c: LinkedImage, t: nat, v: nat) {
    && t < |a.data| && v < |a.data|
    && LoadsAs(d.template, a) && LoadsAs(d.template, b) && LoadsAs(d.template, c)
    && DriverLoads(d.uart8251, a, b, t, TRANSPORT_8251)
    && DriverLoads(d.uart8251, a, c, t, TRANSPORT_8251)
    && DriverLoads(d.uart16550, a, b, t, TRANSPORT_16C550)
    && DriverLoads(d.uart16550, a, c, t, TRANSPORT_16C550)
    && DriverLoads(d.unapi, a, b, t, TRANSPORT_UNAPI)
    && DriverLoads(d.unapi, a, c, t, TRANSPORT_UNAPI)
    && FastDriverLoads(d.uart115k, a, b, t, v)
    && FastDriverLoads(d.uart115k, a, c, t, v)
  }

  /** The same with both bytes replaced: the links must agree on both. */
  ghost predicate FastDriverLoads(file: seq<Byte>, a: LinkedImage, c: LinkedImage, t: nat, v: nat) {
    && |c.data| == |a.data| && t < |a.data| && v < |a.data|
    && Load(file, a.origin) == Some(a.data[t := TRANSPORT_16C550][v := DIVISOR_115200])
    && (Load(file, c.origin) == Some(c.data[t := TRANSPORT_16C550][v := DIVISOR_115200])
        <==> c.data[t] == a.data[t] && c.data[v] == a.data[v])
  }

  lemma TemplateLoads(a: LinkedImage, c: LinkedImage, spec: BuildSpec, w: seq<nat>)
    requires spec.origin == a.origin && Buildable(a.data, spec, w)
    requires Explains(a.data, c.data, a.origin, c.origin - a.origin, w)
    ensures LoadsAs(Built(a.data, spec, w), a) && LoadsAs(Built(a.data, spec, w), c)
  {
    hide Load, Explains, Intended;
    assert spec.origin + (c.origin - a.origin) == c.origin;
    LoadGivesLinkedImage(a.data, c.data, spec, w, c.origin - a.origin);
  }

  /** Patches the four drivers out of a built file; its own consistency checks cannot fail. */
  method PatchDrivers(a: LinkedImage, b: LinkedImage, c: LinkedImage, spec: BuildSpec,
                      template: seq<Byte>, w: seq<nat>, t: nat, v: nat)
    returns (r: Result<Drivers, AgentError>)
    requires spec.origin == a.origin && Buildable(a.data, spec, w)
    requires template == Built(a.data, spec, w)
    requires Explains(a.data, b.data, a.origin, b.origin - a.origin, w)
    requires Explains(a.data, c.data, a.origin, c.origin - a.origin, w)
    requires t < |a.data| && v < |a.data| && t != v
    requires a.data[t] == TRANSPORT_TEMPLATE && a.data[v] == DIVISOR_57600
    ensures r.Ok? && r.value.relocations == w && GoodDrivers(r.value, a, b, c, t, v)
    ensures PatchedBuilds(r.value, a, spec, w, t, v)
  {
    hide Built, Load, Explains, Buildable, DriverLoads, FastDriverLoads, LoadsAs;
    TemplateLoads(a, b, spec, w);
    TemplateLoads(a, c, spec, w);
    var transportAt, divisorAt := FileOffset(w, t), FileOffset(w, v);
    DriverIsPatchedBuild(a, b, spec, w, t, TRANSPORT_8251);
    DriverIsPatchedBuild(a, c, spec, w, t, TRANSPORT_8251);
    DriverIsPatchedBuild(a, b, spec, w, t, TRANSPORT_16C550);
    DriverIsPatchedBuild(a, c, spec, w, t, TRANSPORT_16C550);
    DriverIsPatchedBuild(a, b, spec, w, t, TRANSPORT_UNAPI);
    DriverIsPatchedBuild(a, c, spec, w, t, TRANSPORT_UNAPI);
    DriverIsPatchedBuild(a, b, spec, w, v, DIVISOR_115200);
    PatchedTwice(a, b, spec, w, t, v);
    PatchedTwice(a, c, spec, w, t, v);
    if template[transportAt] != TRANSPORT_TEMPLATE || template[divisorAt] != DIVISOR_57600 {
      assert false;
    }
    var uart8251 := template[transportAt := TRANSPORT_8251];
    var uart16550 := template[transportAt := TRANSPORT_16C550];
    var uart115k := uart16550[divisorAt := DIVISOR_115200];
    var unapi := template[transportAt := TRANSPORT_UNAPI];
    OneDifference(template, transportAt, TRANSPORT_8251, TRANSPORT_16C550);
    OneDifference(template, transportAt, TRANSPORT_16C550, TRANSPORT_UNAPI);
    OneDifference(uart16550, divisorAt, DIVISOR_57600, DIVISOR_115200);
    assert uart16550[divisorAt := DIVISOR_57600] == uart16550;
    if Differing(uart8251, uart16550) + Differing(uart16550, unapi) != {transportAt}
       || Differing(uart16550, uart115k) != {divisorAt} {
      assert false;
    }
    return Ok(Drivers(template, uart8251, uart16550, uart115k, unapi, transportAt, divisorAt, w));
  }

  /** The three links are in order, and `w` is a table that a file can be built around for all of them. */
  ghost predicate CommonTable(a: LinkedImage, b: LinkedImage, c: LinkedImage, o: Offsets, w: seq<nat>) {
    && LinkFault(a, b, c, o).None?
    && b.origin != a.origin && c.origin != a.origin
    && Explains(a.data, b.data, a.origin, b.origin - a.origin, w)
    && Explains(a.data, c.data, a.origin, c.origin - a.origin, w)
    && Buildable(a.data, SpecFor(a, b, o, w), w)
  }

  /** The table inferred from the first displacement is the only candidate. */
  lemma OnlyCandidate(a: LinkedImage, b: LinkedImage, c: LinkedImage, o: Offsets, w: seq<nat>, inferred: seq<nat>)
    requires CommonTable(a, b, c, o, w)
    requires Explains(a.data, b.data, a.origin, b.origin - a.origin, inferred)
    ensures w == inferred && Acceptable(a.data, b.data, SpecFor(a, b, o, inferred), w)
  {
    hide Explains, Buildable;
    OneExplanation(a.data, b.data, a.origin, b.origin - a.origin, w, inferred);
  }

  /**
   * The whole build.  It succeeds exactly when the links have a common table, and a success gives
   * one file that loads as each of the three links.  The header and the hook table of every file
   * are those of the resident, each hook with its own handler.  A driver loads as the primary link with only
   * its transport and divisor bytes changed, and as another link exactly if that link has the
   * same bytes there.  The last checks of the build are never the reason for a refusal.
   */
  method BuildAgentTsr(a: LinkedImage, b: LinkedImage, c: LinkedImage, o: Offsets)
    returns (r: Result<Drivers, AgentError>)
    ensures r.Ok? ==> CommonTable(a, b, c, o, r.value.relocations)
    ensures r.Err? ==> forall w: seq<nat> :: !CommonTable(a, b, c, o, w)
    ensures r.Ok? ==> 0 <= o.transport && 0 <= o.divisor
    ensures r.Ok? ==> GoodDrivers(r.value, a, b, c, o.transport, o.divisor)
    ensures r.Ok? ==> ResidentFiles(r.value, a, o, o.transport, o.divisor)
    ensures r.Err? ==> !(r.error.PatchMissesTransport? || r.error.PatchMissesDivisor? || r.error.DriversDiffer?)
  {
    hide Explains, File, Load, Intended, ScalarFault, GoodDrivers, PinAccepts, Acceptable, Buildable, LaidOut,
      PatchedBuilds, ResidentFiles;
    var fault := LinkFault(a, b, c, o);
    if fault.Some? {
      return Err(fault.value);
    }
    var toB := InferRelocations(a.data, b.data, a.origin, b.origin - a.origin);
    if toB.Err? {
      return Err(InferenceFailed(toB.error));
    }
    forall w: seq<nat> | CommonTable(a, b, c, o, w)
      ensures w == toB.value && Acceptable(a.data, b.data, SpecFor(a, b, o, toB.value), w)
    {
      OnlyCandidate(a, b, c, o, w, toB.value);
    }
    var toC := InferRelocations(a.data, c.data, a.origin, c.origin - a.origin);
    if toC.Err? {
      return Err(InferenceFailed(toC.error));
    }
    forall w: seq<nat> | CommonTable(a, b, c, o, w) ensures w == toC.value {
      OneExplanation(a.data, c.data, a.origin, c.origin - a.origin, w, toC.value);
    }
    if toB.value != toC.value {
      return Err(DeltasDisagree);
    }
    var spec := SpecFor(a, b, o, toB.value);
    var built := BuildMemManTsr(a.data, b.data, spec);
    if built.Err? {
      return Err(BuildFailed(built.error));
    }
    var w := built.value.relocations;
    BuiltIsCommon(a, b, c, o, spec, w, toB.value);
    r := PatchDrivers(a, b, c, spec, built.value.data, w, o.transport, o.divisor);
    BuildsAreResident(r.value, a, b, o, w, o.transport, o.divisor);
  }

  lemma BuiltIsCommon(a: LinkedImage, b: LinkedImage, c: LinkedImage, o: Offsets, spec: BuildSpec, w: seq<nat>,
                      inferred: seq<nat>)
    requires LinkFault(a, b, c, o).None? && spec == SpecFor(a, b, o, inferred)
    requires c.origin != a.origin
    requires Explains(a.data, b.data, a.origin, b.origin - a.origin, inferred)
    requires Explains(a.data, c.data, a.origin, c.origin - a.origin, inferred)
    requires Acceptable(a.data, b.data, spec, w)
    ensures w == inferred && CommonTable(a, b, c, o, w)
    ensures Buildable(a.data, spec, w) && Writable(Intended(a.data, spec, w))
    ensures Built(a.data, spec, w) == File(Intended(a.data, spec, w))
  {
    hide Explains, File, Intended, Buildable;
    OneExplanation(a.data, b.data, a.origin, b.origin - a.origin, w, inferred);
    IntendedIsWritable(a.data, spec, w);
  }

  // ------------------------------------------------------------ a driver that does not load everywhere

  /** A payload that begins with an address; its low byte in the primary link is the template byte. */
  function AddressFirst(address: Word): (data: seq<Byte>)
    ensures |data| == 256 && data[..2] == Le16(address)
  {
    Le16(address) + [DIVISOR_57600] + seq(253, _ => 0)
  }

  const TANGLED := Offsets(0, 2, 4, 5, 6, 7, 8, 9, 10, 20)

  function TangledLink(origin: nat): (image: LinkedImage)
    requires 0x4024 <= origin < 0x5000
    ensures |image.data| == 256
  {
    LinkedImage(origin, AddressFirst(0x40FE + (origin - 0x4024)))
  }

  lemma TangledTable(origin: nat)
    requires 0x4024 < origin < 0x5000
    ensures Explains(TangledLink(0x4024).data, TangledLink(origin).data, 0x4024, origin - 0x4024, [0])
  {
    var a, c := TangledLink(0x4024).data, TangledLink(origin).data;
    Le16RoundTrip(0x40FE);
    Le16RoundTrip(0x40FE + (origin - 0x4024));
    assert WordAt(a, 0) == 0x40FE && WordAt(c, 0) == 0x40FE + (origin - 0x4024);
    forall at: nat | at < |a| && a[at] != c[at] ensures CoveredBy(at, [0]) {
      assert at < 2;
      assert [0][0] <= at < [0][0] + 2;
    }
  }

  lemma TangledFirstBytes(origin: nat)
    requires 0x4024 <= origin < 0x5000
    ensures TangledLink(origin).data[0] == (0x40FE + (origin - 0x4024)) % 0x100
    ensures TangledLink(origin).data[2] == DIVISOR_57600
  {
    var data := TangledLink(origin).data;
    assert data[0] == data[..2][0];
  }

  lemma FiveHooks(a: Hook, b: Hook, c: Hook, d: Hook, e: Hook, codeLength: int)
    requires 0 <= a.address < b.address < c.address < d.address < e.address <= 0xFFFF
    requires forall h <- {a, b, c, d, e} :: 0 <= h.handlerOffset < codeLength
    ensures HooksOk([a, b, c, d, e], codeLength)
  {
    var hooks := [a, b, c, d, e];
    assert forall i, j | 0 <= i < j < |hooks| :: hooks[i].address < hooks[j].address;
  }

  lemma TangledIsBuildable(spec: BuildSpec, data: seq<Byte>)
    requires |data| == 256
    requires spec == BuildSpec(
      "MSXAI MCP1", 0x4024, 0x491, 20, 9, 10,
      [Hook(0xFD9A, 4), Hook(0xFD9F, 5), Hook(0xFDA4, 6), Hook(0xFDC2, 7), Hook(0xFF20, 8)], 128, Some([0]))
    ensures Buildable(data, spec, [0])
  {
    hide HooksOk;
    FiveHooks(Hook(0xFD9A, 4), Hook(0xFD9F, 5), Hook(0xFDA4, 6), Hook(0xFDC2, 7), Hook(0xFF20, 8), 20);
    TangledScalars(spec, 256);
  }

  lemma TangledScalars(spec: BuildSpec, size: nat)
    requires size == 256 && spec.name == "MSXAI MCP1" && spec.recordSize == 128
    requires spec.origin == 0x4024 && spec.delta == 0x491
    requires spec.codeLength == 20 && spec.killOffset == 9 && spec.talkOffset == 10
    ensures ScalarFault(spec, size) == None
  {
  }

  lemma TangledIsCommon()
    ensures CommonTable(TangledLink(0x4024), TangledLink(0x44B5), TangledLink(0x46F0), TANGLED, [0])
  {
    hide Explains, Buildable, TangledLink;
    var a, b, c := TangledLink(0x4024), TangledLink(0x44B5), TangledLink(0x46F0);
    TangledOrigins();
    TangledTable(0x44B5);
    TangledTable(0x46F0);
    TangledFirstBytes(0x4024);
    TangledIsBuildable(SpecFor(a, b, TANGLED, [0]), a.data);
  }

  lemma TangledOrigins()
    ensures TangledLink(0x4024).origin == 0x4024
    ensures TangledLink(0x44B5).origin == 0x44B5
    ensures TangledLink(0x46F0).origin == 0x46F0
  {
  }

  /** The build accepts these links, and the 8251 driver does not load as the third of them. */
  lemma DriverCanMissLink()
    ensures var a, b, c := TangledLink(0x4024), TangledLink(0x44B5), TangledLink(0x46F0);
            && CommonTable(a, b, c, TANGLED, [0]) && c.data[0] != a.data[0]
            && var file := Built(a.data, SpecFor(a, b, TANGLED, [0]), [0]);
               && FileOffset([0], 0) < |file|
               && Load(file[FileOffset([0], 0) := TRANSPORT_8251], c.origin) != Some(c.data[0 := TRANSPORT_8251])
  {
    hide Load, Explains, Built, TangledLink, LinkFault, Buildable;
    var a, b, c := TangledLink(0x4024), TangledLink(0x44B5), TangledLink(0x46F0);
    TangledIsCommon();
    TangledOrigins();
    TangledFirstBytes(0x4024);
    TangledFirstBytes(0x46F0);
    DriverIsPatchedBuild(a, c, SpecFor(a, b, TANGLED, [0]), [0], 0, TRANSPORT_8251);
  }
}

/**
 * The MemMan v3 file: header, relocation table, code and init payload, hook table, padding.
 *
 * The builder re-reads its own output and aborts on an inconsistency; those checks are
 * proved dead.  `Parse` and `Load` read a file back from the published layout alone, and the
 * results below say what a loader obtains from a file the builder wrote.
 */
module MemManTsr {
  import opened Octets
  import opened Bytes
  import opened Relocation

  const MAGIC: seq<Byte> := [0x4D, 0x53, 0x54, 0x20, 0x54, 0x53, 0x52, 0x0D, 0x0A]
  const HEADER_SIZE: nat := 36
  const PAGE1_START: int := 0x4000
  const PAGE1_END: int := 0x8000

  datatype Hook = Hook(address: int, handlerOffset: int)

  datatype BuildSpec = BuildSpec(
    name: string, origin: int, delta: int, codeLength: int, killOffset: int, talkOffset: int,
    hooks: seq<Hook>, recordSize: int, expected: Option<seq<int>>)

  datatype BuildError =
    | NameNotAscii | NameLength | NameNotPrintable | BadRecordSize
    | OriginOutsidePage | SecondOriginOutsidePage | PayloadBeyondPage | SecondPayloadBeyondPage
    | BadCodeLength | KillOutsideCode | TalkOutsideCode
    | HookAddressRange | DuplicateHook | HandlerOutsideCode
    | Inference(cause: InferError)
    | DuplicateExpected | PinnedSetDiffers(inferred: seq<nat>)
    | WordTableTooLong | HookTableTooLong
    | InternalInconsistency

  datatype BuildResult = BuildResult(
    data: seq<Byte>, relocations: seq<nat>, unpaddedSize: nat, paddingSize: nat)

  // ------------------------------------------------------------ the specification of a build

  /** The first complaint about the scalar fields, in the order they are checked. */
  function ScalarFault(spec: BuildSpec, size: nat): Option<BuildError> {
    if exists c <- spec.name :: c as int > 0x7F then Some(NameNotAscii)
    else if !(1 <= |spec.name| <= 12) then Some(NameLength)
    else if exists c <- spec.name :: !(0x20 <= c as int <= 0x7E) then Some(NameNotPrintable)
    else if spec.recordSize != 128 && spec.recordSize != 256 then Some(BadRecordSize)
    else if !(PAGE1_START <= spec.origin < PAGE1_END) then Some(OriginOutsidePage)
    else if !(PAGE1_START <= spec.origin + spec.delta < PAGE1_END) then Some(SecondOriginOutsidePage)
    else if spec.origin + size > PAGE1_END then Some(PayloadBeyondPage)
    else if spec.origin + spec.delta + size > PAGE1_END then Some(SecondPayloadBeyondPage)
    else if !(0 < spec.codeLength < size) then Some(BadCodeLength)
    else if !(0 <= spec.killOffset < spec.codeLength) then Some(KillOutsideCode)
    else if !(0 <= spec.talkOffset < spec.codeLength) then Some(TalkOutsideCode)
    else None
  }

  predicate HooksOk(hooks: seq<Hook>, codeLength: int) {
    && (forall h <- hooks :: 0 <= h.address <= 0xFFFF && 0 <= h.handlerOffset < codeLength)
    && (forall i, j | 0 <= i < j < |hooks| :: hooks[i].address != hooks[j].address)
  }

  method ValidateHooks(spec: BuildSpec) returns (fault: Option<BuildError>)
    ensures fault.None? <==> HooksOk(spec.hooks, spec.codeLength)
    ensures fault.Some? ==> fault.value in {HookAddressRange, DuplicateHook, HandlerOutsideCode}
  {
    var seen: set<int> := {};
    for k := 0 to |spec.hooks|
      invariant HooksOk(spec.hooks[..k], spec.codeLength)
      invariant seen == set h | h in spec.hooks[..k] :: h.address
    {
      var hook := spec.hooks[k];
      assert hook in spec.hooks && spec.hooks[..k + 1] == spec.hooks[..k] + [hook];
      if !(0 <= hook.address <= 0xFFFF) {
        return Some(HookAddressRange);
      }
      if hook.address in seen {
        var h :| h in spec.hooks[..k] && h.address == hook.address;
        return Some(DuplicateHook);
      }
      forall i | 0 <= i < k ensures spec.hooks[i].address != hook.address {
        assert spec.hooks[..k][i] in spec.hooks[..k];
      }
      seen := seen + {hook.address};
      if !(0 <= hook.handlerOffset < spec.codeLength) {
        return Some(HandlerOutsideCode);
      }
    }
    assert spec.hooks[..|spec.hooks|] == spec.hooks;
    return None;
  }

  // ------------------------------------------------------------ emission

  function NameByte(name: string, i: nat): Byte {
    if i < |name| && name[i] as int <= 0xFF then name[i] as int else 0x20
  }

  /** A name in its 12-byte field, blank-filled. */
  function Padded(name: string): (s: seq<Byte>)
    ensures |s| == 12
  {
    seq(12, i requires 0 <= i < 12 => NameByte(name, i))
  }

  function FlatWords(words: seq<Word>): (s: seq<Byte>)
    ensures |s| == 2 * |words|
  {
    if words == [] then [] else Le16(words[0]) + FlatWords(words[1..])
  }

  function HookWords(origin: int, hooks: seq<Hook>): (words: seq<Word>)
    ensures |words| == 2 * |hooks|
  {
    if hooks == [] then []
    else [Wrap(hooks[0].address), Wrap(origin + hooks[0].handlerOffset)] + HookWords(origin, hooks[1..])
  }

  datatype Fields = Fields(
    name: seq<Byte>, origin: Word, initAddress: Word, killAddress: Word, talkAddress: Word,
    codeLength: Word, initLength: Word)

  function EncodeHeader(f: Fields): (s: seq<Byte>)
    requires |f.name| == 12
    ensures |s| == HEADER_SIZE
  {
    MAGIC + f.name + [0x1A] + FlatWords(
      [3, f.origin, f.initAddress, f.killAddress, f.talkAddress, f.codeLength, f.initLength])
  }

  /** Everything a loader learns from a file. */
  datatype Contents = Contents(
    fields: Fields, relocations: seq<Word>, payload: seq<Byte>, hooks: seq<Word>, padding: nat)

  function Unpadded(c: Contents): seq<Byte>
    requires |c.fields.name| == 12
    requires 2 + 2 * |c.relocations| < 0x1_0000 && 2 + 2 * |c.hooks| < 0x1_0000
  {
    EncodeHeader(c.fields)
      + Le16(2 + 2 * |c.relocations|) + FlatWords(c.relocations)
      + c.payload
      + Le16(2 + 2 * |c.hooks|) + FlatWords(c.hooks)
  }

  function Zeros(n: nat): (s: seq<Byte>)
    ensures |s| == n
  {
    seq(n, _ => 0)
  }

  predicate Writable(c: Contents) {
    && |c.fields.name| == 12
    && 2 + 2 * |c.relocations| < 0x1_0000 && 2 + 2 * |c.hooks| < 0x1_0000
    && |c.hooks| % 2 == 0
    && |c.payload| == c.fields.codeLength + c.fields.initLength
  }

  function File(c: Contents): seq<Byte>
    requires Writable(c)
  {
    Unpadded(c) + Zeros(c.padding)
  }

  // ------------------------------------------------------------ reading a file back

  function ReadWords(data: seq<Byte>, at: nat, count: nat): seq<Word>
    requires at + 2 * count <= |data|
  {
    seq(count, i requires 0 <= i < count => WordAt(data, at + 2 * i))
  }

  function ReadFields(data: seq<Byte>): Fields
    requires |data| >= HEADER_SIZE
  {
    var w := ReadWords(data, 22, 7);
    Fields(data[9..21], w[1], w[2], w[3], w[4], w[5], w[6])
  }

  /** Reads a file from the layout alone; `None` when the bytes do not follow it. */
  function Parse(data: seq<Byte>): Option<Contents> {
    if |data| < HEADER_SIZE + 2 || data[..9] != MAGIC || data[21] != 0x1A || WordAt(data, 22) != 3 then None
    else
      var fields := ReadFields(data);
      var relLength := WordAt(data, HEADER_SIZE);
      var payloadAt := HEADER_SIZE + relLength;
      var hooksAt := payloadAt + fields.codeLength + fields.initLength;
      if relLength < 2 || relLength % 2 != 0 || hooksAt + 2 > |data| then None
      else
        var hookLength := WordAt(data, hooksAt);
        var end := hooksAt + hookLength;
        if hookLength < 2 || hookLength % 4 != 2 || end > |data| then None
        else if exists b <- data[end..] :: b != 0 then None
        else Some(Contents(
            fields,
            ReadWords(data, HEADER_SIZE + 2, (relLength - 2) / 2),
            data[payloadAt..hooksAt],
            ReadWords(data, hooksAt + 2, (hookLength - 2) / 2),
            |data| - end))
  }

  lemma {:induction false} FlatWordsAt(words: seq<Word>, i: nat)
    requires i < |words|
    ensures WordAt(FlatWords(words), 2 * i) == words[i]
    decreases |words|
  {
    var s := FlatWords(words);
    Le16RoundTrip(words[0]);
    if i == 0 {
      assert s[0] == Le16(words[0])[0] && s[1] == Le16(words[0])[1];
    } else {
      FlatWordsAt(words[1..], i - 1);
      assert s[2..] == FlatWords(words[1..]);
      assert s[2 * i] == s[2..][2 * (i - 1)] && s[2 * i + 1] == s[2..][2 * (i - 1) + 1];
    }
  }

  lemma ReadBackWords(before: seq<Byte>, words: seq<Word>, after: seq<Byte>)
    ensures ReadWords(before + FlatWords(words) + after, |before|, |words|) == words
  {
    hide FlatWords;
    var data := before + FlatWords(words) + after;
    forall i | 0 <= i < |words| ensures WordAt(data, |before| + 2 * i) == words[i] {
      FlatWordsAt(words, i);
      assert data[|before| + 2 * i] == FlatWords(words)[2 * i];
      assert data[|before| + 2 * i + 1] == FlatWords(words)[2 * i + 1];
    }
  }

  lemma ReadBackWord(before: seq<Byte>, w: Word, after: seq<Byte>)
    ensures WordAt(before + Le16(w) + after, |before|) == w
  {
    Le16RoundTrip(w);
  }

  lemma ReadBackFields(f: Fields, rest: seq<Byte>)
    requires |f.name| == 12
    ensures var data := EncodeHeader(f) + rest;
            && data[..9] == MAGIC && data[21] == 0x1A && WordAt(data, 22) == 3
            && ReadFields(data) == f
  {
    var words: seq<Word> :=
      [3, f.origin, f.initAddress, f.killAddress, f.talkAddress, f.codeLength, f.initLength];
    var before := MAGIC + f.name + [0x1A];
    var data := EncodeHeader(f) + rest;
    assert data == before + FlatWords(words) + rest;
    ReadBackWords(before, words, rest);
    assert ReadWords(data, 22, 7)[0] == 3;
    assert data[9..21] == f.name;
  }

  /** The three table positions of a written file. */
  function RelLength(c: Contents): nat {
    2 + 2 * |c.relocations|
  }

  function HooksAt(c: Contents): nat {
    HEADER_SIZE + RelLength(c) + |c.payload|
  }

  function End(c: Contents): nat {
    HooksAt(c) + 2 + 2 * |c.hooks|
  }

  lemma RelocationsReadBack(c: Contents)
    requires Writable(c)
    ensures |File(c)| == End(c) + c.padding
    ensures WordAt(File(c), HEADER_SIZE) == RelLength(c)
    ensures ReadWords(File(c), HEADER_SIZE + 2, |c.relocations|) == c.relocations
    ensures File(c)[HEADER_SIZE + RelLength(c)..HooksAt(c)] == c.payload
  {
    hide FlatWords, EncodeHeader, ReadWords, WordAt, Le16;
    var head, mark := EncodeHeader(c.fields), Le16(RelLength(c));
    var table := FlatWords(c.relocations);
    var rest := c.payload + Le16(2 + 2 * |c.hooks|) + FlatWords(c.hooks) + Zeros(c.padding);
    assert File(c) == head + mark + (table + rest);
    ReadBackWord(head, RelLength(c), table + rest);
    assert File(c) == (head + mark) + table + rest;
    ReadBackWords(head + mark, c.relocations, rest);
  }

  lemma HooksReadBack(c: Contents)
    requires Writable(c)
    ensures |File(c)| == End(c) + c.padding
    ensures WordAt(File(c), HooksAt(c)) == 2 + 2 * |c.hooks|
    ensures ReadWords(File(c), HooksAt(c) + 2, |c.hooks|) == c.hooks
    ensures File(c)[End(c)..] == Zeros(c.padding)
  {
    hide FlatWords, EncodeHeader, ReadWords, WordAt, Le16;
    var before := EncodeHeader(c.fields) + Le16(RelLength(c)) + FlatWords(c.relocations) + c.payload;
    var mark, table := Le16(2 + 2 * |c.hooks|), FlatWords(c.hooks);
    var rest := Zeros(c.padding);
    assert File(c) == before + mark + (table + rest);
    ReadBackWord(before, 2 + 2 * |c.hooks|, table + rest);
    assert File(c) == (before + mark) + table + rest;
    ReadBackWords(before + mark, c.hooks, rest);
  }

  lemma FieldsReadBack(c: Contents)
    requires Writable(c)
    ensures |File(c)| >= HEADER_SIZE + 2
    ensures File(c)[..9] == MAGIC && File(c)[21] == 0x1A && WordAt(File(c), 22) == 3
    ensures ReadFields(File(c)) == c.fields
  {
    hide FlatWords, EncodeHeader, ReadFields, WordAt, Le16;
    var rest := Le16(RelLength(c)) + FlatWords(c.relocations) + c.payload
      + Le16(2 + 2 * |c.hooks|) + FlatWords(c.hooks) + Zeros(c.padding);
    assert File(c) == EncodeHeader(c.fields) + rest;
    ReadBackFields(c.fields, rest);
  }

  /** Reading back what was written gives every part again. */
  lemma ParseAfterFile(c: Contents)
    requires Writable(c)
    ensures Parse(File(c)) == Some(c)
  {
    hide File, ReadFields, ReadWords, WordAt;
    FieldsReadBack(c);
    RelocationsReadBack(c);
    HooksReadBack(c);
    var data := File(c);
    assert forall b <- data[End(c)..] :: b == 0;
    assert (RelLength(c) - 2) / 2 == |c.relocations|;
    assert (2 + 2 * |c.hooks| - 2) / 2 == |c.hooks|;
  }

  // ------------------------------------------------------------ the builder

  function Addresses(origin: int, offsets: seq<nat>): (words: seq<Word>)
    ensures |words| == |offsets|
  {
    seq(|offsets|, i requires 0 <= i < |offsets| => Wrap(origin + offsets[i]))
  }

  function PaddingFor(size: nat, recordSize: int): nat
    requires recordSize > 0
  {
    (-(size as int)) % recordSize
  }

  /** What a correct file for this build contains. */
  function Intended(image: seq<Byte>, spec: BuildSpec, relocations: seq<nat>): Contents
    requires ScalarFault(spec, |image|) == None
    requires 2 + 2 * |relocations| < 0x1_0000 && 2 + 4 * |spec.hooks| < 0x1_0000
  {
    var size := HEADER_SIZE + 4 + 2 * |relocations| + |image| + 4 * |spec.hooks|;
    Contents(
      Fields(Padded(spec.name), spec.origin, spec.origin + spec.codeLength,
             spec.origin + spec.killOffset, spec.origin + spec.talkOffset,
             spec.codeLength, |image| - spec.codeLength),
      Addresses(spec.origin, relocations), image, HookWords(spec.origin, spec.hooks),
      PaddingFor(size, spec.recordSize))
  }

  lemma {:induction false} HookWordsConcat(origin: int, a: seq<Hook>, b: seq<Hook>)
    ensures HookWords(origin, a + b) == HookWords(origin, a) + HookWords(origin, b)
    decreases |a|
  {
    if a == [] {
      assert a + b == b;
    } else {
      assert (a + b)[0] == a[0] && (a + b)[1..] == a[1..] + b;
      HookWordsConcat(origin, a[1..], b);
    }
  }

  lemma {:induction false} FlatWordsConcat(a: seq<Word>, b: seq<Word>)
    ensures FlatWords(a + b) == FlatWords(a) + FlatWords(b)
    decreases |a|
  {
    if a == [] {
      assert a + b == b;
    } else {
      assert (a + b)[0] == a[0] && (a + b)[1..] == a[1..] + b;
      FlatWordsConcat(a[1..], b);
    }
  }

  lemma {:induction false} TableIsShort(w: seq<nat>, size: nat)
    requires Table(w, size)
    ensures 2 * |w| <= size
    ensures w != [] ==> 2 * |w| <= w[|w| - 1] + 2
    decreases |w|
  {
    if |w| > 0 {
      var n := |w| - 1;
      assert forall i | 0 <= i < n - 1 :: w[..n][i] + 2 <= w[..n][i + 1];
      TableIsShort(w[..n], size);
      if n > 0 {
        assert w[..n][n - 1] + 2 <= w[n];
      }
    }
  }

  lemma OneMoreHook(origin: int, hooks: seq<Hook>, k: nat)
    requires k < |hooks|
    ensures FlatWords(HookWords(origin, hooks[..k + 1]))
         == FlatWords(HookWords(origin, hooks[..k]))
            + Le16(Wrap(hooks[k].address)) + Le16(Wrap(origin + hooks[k].handlerOffset))
  {
    hide Le16, Wrap;
    var pair := [Wrap(hooks[k].address), Wrap(origin + hooks[k].handlerOffset)];
    assert hooks[..k + 1] == hooks[..k] + [hooks[k]];
    HookWordsConcat(origin, hooks[..k], [hooks[k]]);
    assert HookWords(origin, [hooks[k]]) == pair;
    FlatWordsConcat(HookWords(origin, hooks[..k]), pair);
    FlatPair(pair[0], pair[1]);
  }

  lemma FlatPair(x: Word, y: Word)
    ensures FlatWords([x, y]) == Le16(x) + Le16(y)
  {
    hide Le16;
    assert [x, y][1..] == [y] && [y][1..] == [];
  }

  /** The hook table is appended entry by entry behind its length word. */
  method EmitHookTable(origin: int, hooks: seq<Hook>) returns (r: Result<seq<Byte>, BuildError>)
    ensures r.Ok? <==> 2 + 4 * |hooks| < 0x1_0000
    ensures r.Ok? ==> r.value == Le16(2 + 2 * |HookWords(origin, hooks)|) + FlatWords(HookWords(origin, hooks))
    ensures r.Err? ==> r.error == HookTableTooLong
  {
    hide HookWords, Le16, Wrap;
    var length := 2 + 4 * |hooks|;
    if length > 0xFFFF {
      return Err(HookTableTooLong);
    }
    var output: seq<Byte> := Le16(length);
    assert output + FlatWords(HookWords(origin, hooks[..0])) == output;
    for k := 0 to |hooks|
      invariant output == Le16(length) + FlatWords(HookWords(origin, hooks[..k]))
    {
      var hook := hooks[k];
      OneMoreHook(origin, hooks, k);
      output := output + Le16(Wrap(hook.address)) + Le16(Wrap(origin + hook.handlerOffset));
    }
    assert hooks[..|hooks|] == hooks;
    return Ok(output);
  }

  predicate FieldsMatch(f: Fields, image: seq<Byte>, spec: BuildSpec) {
    && f.name == Padded(spec.name)
    && f.origin == spec.origin
    && f.initAddress == spec.origin + spec.codeLength
    && f.killAddress == spec.origin + spec.killOffset
    && f.talkAddress == spec.origin + spec.talkOffset
    && f.codeLength == spec.codeLength
    && f.initLength == |image| - spec.codeLength
  }

  /** The builder's own re-reading of its output: false when something is inconsistent. */
  function EmissionConsistent(data: seq<Byte>, image: seq<Byte>, spec: BuildSpec,
                              relocations: seq<nat>, unpaddedSize: nat): bool
    requires |data| >= HEADER_SIZE + 2 && spec.recordSize > 0 && unpaddedSize <= |data|
  {
    && |data| % spec.recordSize == 0
    && (forall b <- data[unpaddedSize..] :: b == 0)
    && data[..9] == MAGIC && data[21] == 0x1A && WordAt(data, 22) == 3
    && FieldsMatch(ReadFields(data), image, spec)
    && var relLength := WordAt(data, HEADER_SIZE);
       && relLength == 2 + 2 * |relocations|
       && var payloadAt := HEADER_SIZE + relLength;
          && payloadAt + |image| + 2 <= |data|
          && data[payloadAt..payloadAt + |image|] == image
          && payloadAt + |image| + WordAt(data, payloadAt + |image|) == unpaddedSize
  }

  lemma PaddingFills(size: nat, recordSize: int)
    requires recordSize == 128 || recordSize == 256
    ensures (size + PaddingFor(size, recordSize)) % recordSize == 0
    ensures PaddingFor(size, recordSize) < recordSize
  {
  }

  predicate Buildable(image: seq<Byte>, spec: BuildSpec, relocations: seq<nat>) {
    && ScalarFault(spec, |image|) == None
    && HooksOk(spec.hooks, spec.codeLength)
    && Table(relocations, |image|)
    && 2 + 2 * |relocations| < 0x1_0000 && 2 + 4 * |spec.hooks| < 0x1_0000
  }

  lemma IntendedIsWritable(image: seq<Byte>, spec: BuildSpec, relocations: seq<nat>)
    requires Buildable(image, spec, relocations)
    ensures var c := Intended(image, spec, relocations);
            Writable(c) && |Unpadded(c)| == End(c)
  {
  }

  /** The re-reading of a file built from valid inputs never finds an inconsistency. */
  lemma EmissionIsConsistent(image: seq<Byte>, spec: BuildSpec, relocations: seq<nat>)
    requires Buildable(image, spec, relocations)
    ensures var c := Intended(image, spec, relocations);
            && Writable(c) && |File(c)| == End(c) + c.padding
            && EmissionConsistent(File(c), image, spec, relocations, End(c))
  {
    hide File, ReadFields, ReadWords, WordAt, FlatWords, EncodeHeader;
    var c := Intended(image, spec, relocations);
    IntendedIsWritable(image, spec, relocations);
    FieldsReadBack(c);
    RelocationsReadBack(c);
    HooksReadBack(c);
    PaddingFills(End(c), spec.recordSize);
    assert forall b <- File(c)[End(c)..] :: b == 0;
  }

  /** Two octets of a file, low one first. */
  predicate Spells(file: seq<Byte>, at: nat, value: int) {
    at + 2 <= |file| && value == file[at] as int + 0x100 * file[at + 1] as int
  }

  /** A built file, offset by offset, as the loader reads it. */
  predicate LaidOut(file: seq<Byte>, image: seq<Byte>, spec: BuildSpec, w: seq<nat>) {
    && |file| >= HooksEnd(image, spec, w)
    && file[..9] == [0x4D, 0x53, 0x54, 0x20, 0x54, 0x53, 0x52, 0x0D, 0x0A]
    && NameSpelled(file, spec.name)
    && file[21] == 0x1A && Spells(file, 22, 3)
    && Spells(file, 24, spec.origin)
    && Spells(file, 26, spec.origin + spec.codeLength)
    && Spells(file, 28, spec.origin + spec.killOffset)
    && Spells(file, 30, spec.origin + spec.talkOffset)
    && Spells(file, 32, spec.codeLength)
    && Spells(file, 34, |image| - spec.codeLength)
    && Spells(file, 36, 2 + 2 * |w|)
    && (forall i | 0 <= i < |w| :: Spells(file, 38 + 2 * i, spec.origin + w[i]))
    && file[38 + 2 * |w|..38 + 2 * |w| + |image|] == image
    && Spells(file, 38 + 2 * |w| + |image|, 2 + 4 * |spec.hooks|)
    && HooksLaidOut(file, 40 + 2 * |w| + |image|, spec.origin, spec.hooks)
    && (forall k | HooksEnd(image, spec, w) <= k < |file| :: file[k] == 0)
    && 0 < spec.recordSize && |file| % spec.recordSize == 0 && |file| < HooksEnd(image, spec, w) + spec.recordSize
  }

  function HooksEnd(image: seq<Byte>, spec: BuildSpec, w: seq<nat>): nat {
    40 + 2 * |w| + |image| + 4 * |spec.hooks|
  }

  /** The name in its twelve octets, blank-filled. */
  predicate NameSpelled(file: seq<Byte>, name: string) {
    |file| >= 21
    && forall i | 0 <= i < 12 ::
         && (i < |name| ==> file[9 + i] as int == name[i] as int)
         && (i >= |name| ==> file[9 + i] == 0x20)
  }

  predicate HooksLaidOut(file: seq<Byte>, at: nat, origin: int, hooks: seq<Hook>) {
    forall i | 0 <= i < |hooks| ::
      && Spells(file, at + 4 * i, hooks[i].address)
      && Spells(file, at + 4 * i + 2, origin + hooks[i].handlerOffset)
  }

  lemma WordIsSpelled(file: seq<Byte>, at: nat, value: int)
    requires at + 2 <= |file| && WordAt(file, at) == value
    ensures Spells(file, at, value)
  {
  }

  lemma {:induction false} HookWordsAt(origin: int, hooks: seq<Hook>, i: nat)
    requires i < |hooks|
    ensures HookWords(origin, hooks)[2 * i] == Wrap(hooks[i].address)
    ensures HookWords(origin, hooks)[2 * i + 1] == Wrap(origin + hooks[i].handlerOffset)
    decreases |hooks|
  {
    hide Wrap;
    if i > 0 {
      HookWordsAt(origin, hooks[1..], i - 1);
    }
  }

  lemma NameLaidOut(file: seq<Byte>, image: seq<Byte>, spec: BuildSpec)
    requires ScalarFault(spec, |image|) == None && |file| >= 36 && file[9..21] == Padded(spec.name)
    ensures NameSpelled(file, spec.name)
  {
    forall i | 0 <= i < 12
      ensures (i < |spec.name| ==> file[9 + i] as int == spec.name[i] as int)
              && (i >= |spec.name| ==> file[9 + i] == 0x20)
    {
      assert file[9..21][i] == Padded(spec.name)[i];
      if i < |spec.name| {
        assert spec.name[i] in spec.name;
      }
    }
  }

  lemma HeaderLaidOut(image: seq<Byte>, spec: BuildSpec, w: seq<nat>)
    requires Buildable(image, spec, w)
    ensures var c := Intended(image, spec, w);
            && Writable(c) && |File(c)| >= 36 && File(c)[..9] == MAGIC && File(c)[21] == 0x1A
            && NameSpelled(File(c), spec.name)
            && Spells(File(c), 22, 3) && Spells(File(c), 24, spec.origin)
            && Spells(File(c), 26, spec.origin + spec.codeLength)
            && Spells(File(c), 28, spec.origin + spec.killOffset)
            && Spells(File(c), 30, spec.origin + spec.talkOffset)
            && Spells(File(c), 32, spec.codeLength) && Spells(File(c), 34, |image| - spec.codeLength)
  {
    hide File, WordAt, HookWords, Addresses;
    var c := Intended(image, spec, w);
    IntendedIsWritable(image, spec, w);
    FieldsReadBack(c);
    var file := File(c);
    NameLaidOut(file, image, spec);
    var fields := ReadWords(file, 22, 7);
    assert fields[1] == spec.origin && fields[2] == spec.origin + spec.codeLength;
    WordIsSpelled(file, 22, 3);
    WordIsSpelled(file, 24, spec.origin);
    WordIsSpelled(file, 26, spec.origin + spec.codeLength);
    WordIsSpelled(file, 28, spec.origin + spec.killOffset);
    WordIsSpelled(file, 30, spec.origin + spec.talkOffset);
    WordIsSpelled(file, 32, spec.codeLength);
    WordIsSpelled(file, 34, |image| - spec.codeLength);
  }

  lemma RelocationsLaidOut(image: seq<Byte>, spec: BuildSpec, w: seq<nat>)
    requires Buildable(image, spec, w)
    ensures var c := Intended(image, spec, w);
            && Writable(c) && |File(c)| >= HooksEnd(image, spec, w)
            && Spells(File(c), 36, 2 + 2 * |w|)
            && (forall i | 0 <= i < |w| :: Spells(File(c), 38 + 2 * i, spec.origin + w[i]))
            && File(c)[38 + 2 * |w|..38 + 2 * |w| + |image|] == image
  {
    hide File, WordAt, HookWords, Padded;
    var c := Intended(image, spec, w);
    IntendedIsWritable(image, spec, w);
    RelocationsReadBack(c);
    WordIsSpelled(File(c), 36, 2 + 2 * |w|);
    forall i | 0 <= i < |w| ensures Spells(File(c), 38 + 2 * i, spec.origin + w[i]) {
      assert ReadWords(File(c), 38, |w|)[i] == Wrap(spec.origin + w[i]);
      WrapKeepsWords(spec.origin + w[i]);
      WordIsSpelled(File(c), 38 + 2 * i, spec.origin + w[i]);
    }
  }

  lemma HooksAreLaidOut(file: seq<Byte>, at: nat, origin: int, hooks: seq<Hook>)
    requires at + 4 * |hooks| <= |file|
    requires ReadWords(file, at, 2 * |hooks|) == HookWords(origin, hooks)
    requires forall h <- hooks :: 0 <= h.address <= 0xFFFF && 0 <= origin + h.handlerOffset < 0x1_0000
    ensures HooksLaidOut(file, at, origin, hooks)
  {
    hide HookWords, WordAt;
    forall i | 0 <= i < |hooks|
      ensures Spells(file, at + 4 * i, hooks[i].address)
              && Spells(file, at + 4 * i + 2, origin + hooks[i].handlerOffset)
    {
      var words := ReadWords(file, at, 2 * |hooks|);
      HookWordsAt(origin, hooks, i);
      assert words[2 * i] == WordAt(file, at + 2 * (2 * i));
      assert words[2 * i + 1] == WordAt(file, at + 2 * (2 * i + 1));
      assert hooks[i] in hooks;
      WrapKeepsWords(hooks[i].address);
      WrapKeepsWords(origin + hooks[i].handlerOffset);
      WordIsSpelled(file, at + 4 * i, hooks[i].address);
      WordIsSpelled(file, at + 4 * i + 2, origin + hooks[i].handlerOffset);
    }
  }

  lemma HookTableLaidOut(image: seq<Byte>, spec: BuildSpec, w: seq<nat>)
    requires Buildable(image, spec, w)
    ensures var c := Intended(image, spec, w);
            && Writable(c) && |File(c)| >= HooksEnd(image, spec, w)
            && Spells(File(c), 38 + 2 * |w| + |image|, 2 + 4 * |spec.hooks|)
            && HooksLaidOut(File(c), 40 + 2 * |w| + |image|, spec.origin, spec.hooks)
            && (forall k | HooksEnd(image, spec, w) <= k < |File(c)| :: File(c)[k] == 0)
            && |File(c)| % spec.recordSize == 0 && |File(c)| < HooksEnd(image, spec, w) + spec.recordSize
  {
    hide File, WordAt, HookWords, Padded, Addresses, HooksLaidOut, ReadWords;
    var c := Intended(image, spec, w);
    IntendedIsWritable(image, spec, w);
    HooksReadBack(c);
    PaddingFills(End(c), spec.recordSize);
    var file, at := File(c), 40 + 2 * |w| + |image|;
    WordIsSpelled(file, at - 2, 2 + 4 * |spec.hooks|);
    assert forall h <- spec.hooks :: 0 <= h.address <= 0xFFFF && 0 <= spec.origin + h.handlerOffset < 0x1_0000;
    HooksAreLaidOut(file, at, spec.origin, spec.hooks);
    forall k | End(c) <= k < |file| ensures file[k] == 0 {
      assert file[End(c)..][k - End(c)] == 0;
    }
  }

  /** What is written for valid inputs lies where a loader looks for it. */
  lemma FileIsLaidOut(image: seq<Byte>, spec: BuildSpec, w: seq<nat>)
    requires Buildable(image, spec, w)
    ensures var c := Intended(image, spec, w);
            Writable(c) && LaidOut(File(c), image, spec, w)
  {
    hide File, Intended, HooksLaidOut, Spells, Buildable;
    HeaderLaidOut(image, spec, w);
    RelocationsLaidOut(image, spec, w);
    HookTableLaidOut(image, spec, w);
    RecordSizes(image, spec, w);
  }

  lemma RecordSizes(image: seq<Byte>, spec: BuildSpec, w: seq<nat>)
    requires Buildable(image, spec, w)
    ensures spec.recordSize == 128 || spec.recordSize == 256
  {
  }

  predicate PinAccepts(expected: Option<seq<int>>, relocations: seq<nat>) {
    match expected
    case None => true
    case Some(pinned) => multiset(relocations) == multiset(pinned)
  }

  /** Compares the inferred table with the pinned offsets, if any. */
  method CheckPin(expected: Option<seq<int>>, relocations: seq<nat>, size: nat)
    returns (fault: Option<BuildError>)
    requires Table(relocations, size)
    ensures fault.None? <==> PinAccepts(expected, relocations)
    ensures fault.Some? ==> fault.value == DuplicateExpected || fault.value == PinnedSetDiffers(relocations)
  {
    if expected.None? {
      return None;
    }
    var pinned := expected.value;
    if exists i, j | 0 <= i < j < |pinned| :: pinned[i] == pinned[j] {
      NoDuplicatesInTable(relocations, size, pinned);
      return Some(DuplicateExpected);
    }
    // Both sides are sets here, so comparing sorted tuples is comparing multisets.
    return if multiset(relocations) != multiset(pinned) then Some(PinnedSetDiffers(relocations)) else None;
  }

  /** The file before padding, put together part by part. */
  method Pack(image: seq<Byte>, spec: BuildSpec, relocations: seq<nat>, hookTable: seq<Byte>)
    returns (unpadded: seq<Byte>)
    requires Buildable(image, spec, relocations)
    requires hookTable == Le16(2 + 4 * |spec.hooks|) + FlatWords(HookWords(spec.origin, spec.hooks))
    ensures var c := Intended(image, spec, relocations);
      Writable(c) && unpadded == Unpadded(c) && |unpadded| == End(c)
  {
    hide FlatWords, EncodeHeader, HookWords, Padded;
    ghost var c := Intended(image, spec, relocations);
    IntendedIsWritable(image, spec, relocations);
    var fields := Fields(
      Padded(spec.name), spec.origin, spec.origin + spec.codeLength, spec.origin + spec.killOffset,
      spec.origin + spec.talkOffset, spec.codeLength, |image| - spec.codeLength);
    unpadded := EncodeHeader(fields)
      + Le16(2 + 2 * |relocations|) + FlatWords(Addresses(spec.origin, relocations))
      + image + hookTable;
    AppendedParts(c, hookTable);
  }

  /** Packs, pads and re-reads the file for a table that passed every check. */
  method Emit(image: seq<Byte>, spec: BuildSpec, relocations: seq<nat>)
    returns (r: Result<BuildResult, BuildError>)
    requires ScalarFault(spec, |image|) == None && HooksOk(spec.hooks, spec.codeLength)
    requires Table(relocations, |image|)
    ensures r.Ok? <==> Buildable(image, spec, relocations)
    ensures r.Err? ==> r.error == HookTableTooLong
    ensures r.Ok? ==> var c := Intended(image, spec, relocations);
      Writable(c) && r.value == BuildResult(File(c), relocations, End(c), c.padding)
    ensures r.Ok? ==> |r.value.data| % spec.recordSize == 0 && r.value.paddingSize < spec.recordSize
    ensures r.Ok? ==> r.value.unpaddedSize + r.value.paddingSize == |r.value.data|
  {
    hide FlatWords, EncodeHeader, HookWords, Padded, EmissionConsistent, Unpadded, File, Table;
    TableIsShort(relocations, |image|);
    if 2 + 2 * |relocations| > 0xFFFF {
      assert false;
    }
    var hookTable := EmitHookTable(spec.origin, spec.hooks);
    if hookTable.Err? {
      return Err(hookTable.error);
    }
    var unpadded := Pack(image, spec, relocations, hookTable.value);
    var padding := PaddingFor(|unpadded|, spec.recordSize);
    var data := unpadded + Zeros(padding);
    FileIsPaddedImage(Intended(image, spec, relocations));
    PaddingFills(|unpadded|, spec.recordSize);
    EmissionIsConsistent(image, spec, relocations);
    if !EmissionConsistent(data, image, spec, relocations, |unpadded|) {
      assert false;
    }
    return Ok(BuildResult(data, relocations, |unpadded|, padding));
  }

  /** Every requirement a table must meet before a file can be built around it. */
  ghost predicate Acceptable(imageA: seq<Byte>, imageB: seq<Byte>, spec: BuildSpec, w: seq<nat>) {
    && |imageA| == |imageB| && spec.delta != 0
    && Buildable(imageA, spec, w)
    && Explains(imageA, imageB, spec.origin, spec.delta, w)
    && PinAccepts(spec.expected, w)
  }

  /**
   * Builds one file, exactly when some table is acceptable.  The internal checks of the
   * builder and the length check of the relocation table are never the reason for a refusal.
   */
  method BuildMemManTsr(imageA: seq<Byte>, imageB: seq<Byte>, spec: BuildSpec)
    returns (r: Result<BuildResult, BuildError>)
    ensures r.Ok? ==> Acceptable(imageA, imageB, spec, r.value.relocations)
    ensures r.Ok? ==> r.value.data == File(Intended(imageA, spec, r.value.relocations))
    ensures r.Ok? ==> LaidOut(r.value.data, imageA, spec, r.value.relocations)
    ensures r.Ok? ==> |r.value.data| % spec.recordSize == 0 && r.value.paddingSize < spec.recordSize
    ensures r.Ok? ==> r.value.unpaddedSize + r.value.paddingSize == |r.value.data|
    ensures r.Err? ==> r.error != InternalInconsistency && r.error != WordTableTooLong
    ensures r.Err? ==> forall w: seq<nat> :: !Acceptable(imageA, imageB, spec, w)
  {
    hide Explains, File, Intended, LaidOut;
    if |imageA| != |imageB| {
      return Err(Inference(DifferentSizes));
    }
    var scalar := ScalarFault(spec, |imageA|);
    if scalar.Some? {
      return Err(scalar.value);
    }
    var hookFault := ValidateHooks(spec);
    if hookFault.Some? {
      return Err(hookFault.value);
    }
    var inferred := InferRelocations(imageA, imageB, spec.origin, spec.delta);
    if inferred.Err? {
      return Err(Inference(inferred.error));
    }
    var relocations := inferred.value;
    forall w: seq<nat> | Explains(imageA, imageB, spec.origin, spec.delta, w) ensures w == relocations {
      OneExplanation(imageA, imageB, spec.origin, spec.delta, w, relocations);
    }
    var pinFault := CheckPin(spec.expected, relocations, |imageA|);
    if pinFault.Some? {
      return Err(pinFault.value);
    }
    r := Emit(imageA, spec, relocations);
    if r.Ok? {
      FileIsLaidOut(imageA, spec, relocations);
    }
  }

  lemma AppendedParts(c: Contents, hookTable: seq<Byte>)
    requires Writable(c)
    requires hookTable == Le16(2 + 2 * |c.hooks|) + FlatWords(c.hooks)
    ensures EncodeHeader(c.fields) + Le16(2 + 2 * |c.relocations|) + FlatWords(c.relocations)
      + c.payload + hookTable == Unpadded(c)
  {
    hide EncodeHeader, FlatWords, Le16;
  }

  lemma FileIsPaddedImage(c: Contents)
    requires Writable(c)
    ensures File(c) == Unpadded(c) + Zeros(c.padding)
  {
  }

  /** A pin list with a duplicate never equals a table. */
  lemma NoDuplicatesInTable(w: seq<nat>, size: nat, pinned: seq<int>)
    requires Table(w, size)
    requires exists i, j | 0 <= i < j < |pinned| :: pinned[i] == pinned[j]
    ensures multiset(w) != multiset(pinned)
  {
    var i, j :| 0 <= i < j < |pinned| && pinned[i] == pinned[j];
    var v := pinned[i];
    assert pinned == pinned[..j] + pinned[j..];
    assert v in pinned[..j] && v in pinned[j..];
    assert multiset(pinned)[v] >= 2;
    OncePerTable(w, size, v);
  }

  lemma {:induction false} OncePerTable(w: seq<nat>, size: nat, v: int)
    requires Table(w, size)
    ensures multiset(w)[v] <= 1
    decreases |w|
  {
    if w != [] {
      var n := |w| - 1;
      assert w == w[..n] + [w[n]];
      assert forall i | 0 <= i < n - 1 :: w[..n][i] + 2 <= w[..n][i + 1];
      OncePerTable(w[..n], size, v);
      if v == w[n] && v in w[..n] {
        var i :| 0 <= i < n && w[i] == v;
        SeparatedOrder(w, (set o | o in w), i, n);
      }
    }
  }

  // ------------------------------------------------------------ what a loader obtains

  /** A loader's reading: parse, then relocate the payload to `at`. */
  function Load(data: seq<Byte>, at: int): Option<seq<Byte>> {
    match Parse(data)
    case None => None
    case Some(c) =>
      var base := c.fields.origin;
      if exists r <- c.relocations :: r < base || r - base + 2 > |c.payload| then None
      else
        var offsets := seq(|c.relocations|, i requires 0 <= i < |c.relocations| => Offset(c.relocations[i], base));
        if !(forall i | 0 <= i < |offsets| :: offsets[i] + 2 <= |c.payload|) then None
        else Some(Relocate(c.payload, at - base, offsets))
  }

  function Offset(address: Word, base: Word): nat {
    if address < base then 0 else address - base
  }

  /** Loading a built file at `at` is relocating the first image by the distance. */
  lemma LoadRelocates(image: seq<Byte>, spec: BuildSpec, relocations: seq<nat>, at: int)
    requires Buildable(image, spec, relocations)
    ensures var c := Intended(image, spec, relocations);
            Writable(c) && Load(File(c), at) == Some(Relocate(image, at - spec.origin, relocations))
  {
    hide File, Parse, FlatWords, Relocate, Padded, HookWords;
    var c := Intended(image, spec, relocations);
    IntendedIsWritable(image, spec, relocations);
    ParseAfterFile(c);
    forall i | 0 <= i < |relocations|
      ensures c.relocations[i] == spec.origin + relocations[i]
    {
      WrapKeepsWords(spec.origin + relocations[i]);
    }
    var offsets := seq(|c.relocations|,
                       i requires 0 <= i < |c.relocations| => Offset(c.relocations[i], c.fields.origin));
    assert offsets == relocations;
    forall r | r in c.relocations ensures !(r < c.fields.origin || r - c.fields.origin + 2 > |image|) {
      var i :| 0 <= i < |relocations| && c.relocations[i] == r;
      assert relocations[i] + 2 <= |image|;
    }
  }

  /** The built file is every image its table explains, at that image's own origin. */
  lemma LoadGivesLinkedImage(imageA: seq<Byte>, imageC: seq<Byte>, spec: BuildSpec,
                             relocations: seq<nat>, distance: int)
    requires Buildable(imageA, spec, relocations)
    requires Explains(imageA, imageC, spec.origin, distance, relocations)
    ensures var c := Intended(imageA, spec, relocations);
            && Writable(c)
            && Load(File(c), spec.origin) == Some(imageA)
            && Load(File(c), spec.origin + distance) == Some(imageC)
  {
    hide File, Load, Explains, Relocate, Intended;
    LoadRelocates(imageA, spec, relocations, spec.origin);
    LoadRelocates(imageA, spec, relocations, spec.origin + distance);
    RelocateByZero(imageA, relocations);
    ExplanationRelocates(imageA, imageC, spec.origin, distance, relocations);
    assert spec.origin + distance - spec.origin == distance;
  }
}

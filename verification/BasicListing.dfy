/**
 * Normalisation of a textual MSX-BASIC listing into the form MSX-DOS saves.
 *
 * The specification splits the text into rows, drops the blank ones, requires a line number
 * on the others and joins them with CRLF and one final 1Ah.  The streaming machine writes
 * blanks before it knows whether a row counts, takes them back by truncating its output, and
 * holds program text in a buffer; it computes the same result for every chunk size.
 */
module BasicListing {
  import opened Octets
  import opened Bytes

  const TAB: Byte := 0x09
  const LF: Byte := 0x0A
  const CR: Byte := 0x0D
  const EOF_MARK: Byte := 0x1A
  const SPACE: Byte := 0x20
  const CRLF: seq<Byte> := [0x0D, 0x0A]

  datatype ListingError = DataAfterEof | ControlByte(b: Byte) | MissingLineNumber | NoProgramLines

  // ------------------------------------------------------------ the whole-text specification

  predicate IsBreak(b: Byte) {
    b == CR || b == LF
  }

  predicate IsBlank(b: Byte) {
    b == TAB || b == SPACE
  }

  predicate IsDigit(b: Byte) {
    0x30 <= b <= 0x39
  }

  /** Bytes before the first one that satisfies a test, or all of them. */
  function FirstBreak(t: seq<Byte>): (k: nat)
    ensures k <= |t| && (k < |t| ==> IsBreak(t[k]))
    ensures forall i | 0 <= i < k :: !IsBreak(t[i])
  {
    if t == [] || IsBreak(t[0]) then 0 else 1 + FirstBreak(t[1..])
  }

  function FirstEof(s: seq<Byte>): (k: nat)
    ensures k <= |s| && (k < |s| ==> s[k] == EOF_MARK)
    ensures forall i | 0 <= i < k :: s[i] != EOF_MARK
  {
    if s == [] || s[0] == EOF_MARK then 0 else 1 + FirstEof(s[1..])
  }

  function BreakWidth(t: seq<Byte>, k: nat): nat
    requires k < |t|
  {
    if t[k] == CR && k + 1 < |t| && t[k + 1] == LF then 2 else 1
  }

  /** The rows of a text: split at CR, LF or CRLF. */
  function Rows(t: seq<Byte>): seq<seq<Byte>>
    decreases |t|
  {
    var k := FirstBreak(t);
    if k == |t| then [t] else [t[..k]] + Rows(t[k + BreakWidth(t, k)..])
  }

  predicate Blank(row: seq<Byte>) {
    forall b <- row :: IsBlank(b)
  }

  /** After blanks, the row goes on with a digit. */
  predicate Numbered(row: seq<Byte>) {
    row != [] && (IsDigit(row[0]) || (IsBlank(row[0]) && Numbered(row[1..])))
  }

  predicate Printable(row: seq<Byte>) {
    forall b <- row :: b >= 0x20 || b == TAB
  }

  predicate GoodRow(row: seq<Byte>) {
    Printable(row) && (Blank(row) || Numbered(row))
  }

  predicate AllGood(rows: seq<seq<Byte>>) {
    forall row <- rows :: GoodRow(row)
  }

  predicate SomeNumbered(rows: seq<seq<Byte>>) {
    exists row <- rows :: Numbered(row)
  }

  /** The program lines, each ended by CRLF. */
  function ProgramText(rows: seq<seq<Byte>>): seq<Byte> {
    if rows == [] then []
    else (if Numbered(rows[0]) then rows[0] + CRLF else []) + ProgramText(rows[1..])
  }

  function Text(s: seq<Byte>): seq<Byte> {
    s[..FirstEof(s)]
  }

  predicate OnlyEofMarks(s: seq<Byte>) {
    forall b <- s :: b == EOF_MARK
  }

  predicate Acceptable(s: seq<Byte>) {
    && OnlyEofMarks(s[FirstEof(s)..])
    && AllGood(Rows(Text(s)))
    && SomeNumbered(Rows(Text(s)))
  }

  function Canonical(s: seq<Byte>): seq<Byte> {
    ProgramText(Rows(Text(s))) + [EOF_MARK]
  }

  // ------------------------------------------------------------ the machine as a function

  /** Finished lines, the line being read, and the flags carried between bytes. */
  datatype State = State(
    done: seq<Byte>, line: seq<Byte>, numbered: bool, sawStatement: bool, pendingCr: bool, eofSeen: bool)

  const START: State := State([], [], false, false, false, false)

  function FinishLine(st: State): State {
    if st.numbered
    then st.(done := st.done + st.line + CRLF, line := [], numbered := false, sawStatement := true)
    else st.(line := [])
  }

  function TakeText(st: State, b: Byte): Result<State, ListingError> {
    if b < 0x20 && b != TAB then Err(ControlByte(b))
    else if st.numbered || IsBlank(b) then Ok(st.(line := st.line + [b]))
    else if IsDigit(b) then Ok(st.(line := st.line + [b], numbered := true))
    else Err(MissingLineNumber)
  }

  function Step(st: State, b: Byte): Result<State, ListingError> {
    if st.eofSeen then if b == EOF_MARK then Ok(st) else Err(DataAfterEof)
    else
      var s1 := if st.pendingCr then FinishLine(st).(pendingCr := false) else st;
      if st.pendingCr && b == LF then Ok(s1)
      else if b == EOF_MARK then Ok(FinishLine(s1).(eofSeen := true))
      else if b == CR then Ok(s1.(pendingCr := true))
      else if b == LF then Ok(FinishLine(s1))
      else TakeText(s1, b)
  }

  function Run(st: State, s: seq<Byte>): Result<State, ListingError>
    decreases |s|
  {
    if s == [] then Ok(st)
    else
      match Step(st, s[0])
      case Err(e) => Err(e)
      case Ok(next) => Run(next, s[1..])
  }

  function Close(st: State): Result<seq<Byte>, ListingError> {
    var last := if st.pendingCr || !st.eofSeen then FinishLine(st) else st;
    if last.sawStatement then Ok(last.done + [EOF_MARK]) else Err(NoProgramLines)
  }

  /** The result of normalising a whole input. */
  function Normalized(s: seq<Byte>): Result<seq<Byte>, ListingError> {
    match Run(START, s)
    case Err(e) => Err(e)
    case Ok(st) => Close(st)
  }

  lemma {:induction false} RunConcat(st: State, a: seq<Byte>, b: seq<Byte>)
    ensures Run(st, a + b) == match Run(st, a)
                              case Err(e) => Err(e)
                              case Ok(mid) => Run(mid, b)
    decreases |a|
  {
    if a == [] {
      assert a + b == b;
    } else {
      assert (a + b)[0] == a[0] && (a + b)[1..] == a[1..] + b;
      match Step(st, a[0])
      case Err(_) =>
      case Ok(next) => RunConcat(next, a[1..], b);
    }
  }

  // ------------------------------------------------------------ the machine meets the specification

  predicate Fresh(st: State) {
    st.line == [] && !st.numbered && !st.pendingCr && !st.eofSeen
  }

  lemma FirstAndRest(row: seq<Byte>)
    requires row != []
    ensures row[0] in row && forall b <- row[1..] :: b in row
    ensures Printable(row) <==> (row[0] >= 0x20 || row[0] == TAB) && Printable(row[1..])
    ensures Blank(row) <==> IsBlank(row[0]) && Blank(row[1..])
  {
    assert forall b :: b in row <==> b == row[0] || b in row[1..];
  }

  /** A row without breaks, read after `st.line`, which is still blank or already numbered. */
  lemma {:induction false} RunRow(st: State, row: seq<Byte>)
    requires !st.pendingCr && !st.eofSeen
    requires st.numbered || Blank(st.line)
    requires forall b <- row :: !IsBreak(b) && b != EOF_MARK
    ensures var good := Printable(row) && (st.numbered || Blank(row) || Numbered(row));
            Run(st, row) ==
              if good then Ok(st.(line := st.line + row, numbered := st.numbered || Numbered(row)))
              else Run(st, row)
    ensures !(Printable(row) && (st.numbered || Blank(row) || Numbered(row))) ==> Run(st, row).Err?
    decreases |row|
  {
    if row == [] {
      assert st.line + row == st.line;
    } else {
      var b := row[0];
      FirstAndRest(row);
      match Step(st, b)
      case Err(_) =>
      case Ok(next) =>
        RunRow(next, row[1..]);
        assert st.line + row == next.line + row[1..];
    }
  }

  lemma BlankIsNotNumbered(row: seq<Byte>)
    requires Blank(row)
    ensures !Numbered(row)
  {
    if row != [] {
      assert row[0] in row;
      BlankIsNotNumbered(row[1..]);
    }
  }

  /** The state the machine would be in once the current line is finished. */
  function Flushed(st: State): State {
    FinishLine(st).(pendingCr := false)
  }

  /** What the machine owes for the rows still to come, starting between lines. */
  ghost predicate Delivers(st: State, rows: seq<seq<Byte>>, r: Result<State, ListingError>) {
    if AllGood(rows) then
      && r.Ok? && !r.value.eofSeen
      && Flushed(r.value) == st.(done := st.done + ProgramText(rows),
                                 sawStatement := st.sawStatement || SomeNumbered(rows))
    else r.Err?
  }

  lemma OneMoreRow(st: State, row: seq<Byte>, rows: seq<seq<Byte>>, r: Result<State, ListingError>)
    requires Fresh(st) && GoodRow(row)
    requires Delivers(Flushed(st.(line := row, numbered := Numbered(row))), rows, r)
    ensures Delivers(st, [row] + rows, r)
  {
    hide GoodRow, Numbered;
    var all := [row] + rows;
    assert all[1..] == rows;
    assert AllGood(all) <==> AllGood(rows) by {
      assert forall x :: x in all <==> x == row || x in rows;
    }
    assert SomeNumbered(all) <==> Numbered(row) || SomeNumbered(rows) by {
      assert forall x :: x in all <==> x == row || x in rows;
    }
    var next := Flushed(st.(line := row, numbered := Numbered(row)));
    assert next.done + ProgramText(rows) == st.done + ProgramText(all);
  }

  /** A CR that is not followed by LF ends the line on its own. */
  lemma PendingCrEndsLine(st: State, rest: seq<Byte>)
    requires st.pendingCr && !st.eofSeen && rest != [] && rest[0] != LF
    ensures Run(st, rest) == Run(Flushed(st), rest)
  {
  }

  /** The first row of a text is read in one go, or refused. */
  lemma ReadFirstRow(st: State, t: seq<Byte>)
    requires Fresh(st) && forall b <- t :: b != EOF_MARK
    ensures var row, tail := t[..FirstBreak(t)], t[FirstBreak(t)..];
            && (GoodRow(row) ==>
                  Run(st, t) == Run(st.(line := row, numbered := Numbered(row)), tail))
            && (!GoodRow(row) ==> Run(st, t).Err?)
            && (forall b <- tail :: b != EOF_MARK)
  {
    hide Run, GoodRow;
    var k := FirstBreak(t);
    var row, tail := t[..k], t[k..];
    assert t == row + tail;
    assert forall b :: b in t <==> b in row || b in tail;
    forall b | b in row ensures !IsBreak(b) && b != EOF_MARK {
      var i :| 0 <= i < |row| && row[i] == b;
      assert t[i] == b;
    }
    RunConcat(st, row, tail);
    RunRow(st, row);
    assert st.line + row == row;
    assert GoodRow(row) <==> Printable(row) && (Blank(row) || Numbered(row)) by {
      GoodRowMeans(row);
    }
  }

  lemma GoodRowMeans(row: seq<Byte>)
    ensures GoodRow(row) <==> Printable(row) && (Blank(row) || Numbered(row))
  {
  }

  lemma LastRow(st: State, row: seq<Byte>)
    requires Fresh(st) && GoodRow(row)
    ensures var read := st.(line := row, numbered := Numbered(row));
            Delivers(st, [row], Ok(read))
  {
    var read := st.(line := row, numbered := Numbered(row));
    assert Flushed(Flushed(read)) == Flushed(read);
    assert Delivers(Flushed(read), [], Ok(read));
    OneMoreRow(st, row, [], Ok(read));
    assert [row] + [] == [row];
  }

  lemma BadFirstRow(st: State, rows: seq<seq<Byte>>, r: Result<State, ListingError>)
    requires rows != [] && !GoodRow(rows[0]) && r.Err?
    ensures Delivers(st, rows, r)
  {
    assert rows[0] in rows;
  }

  /** A CR as the last byte is still pending, which finishing the line takes into account. */
  lemma PendingDeliversToo(read: State)
    requires !read.eofSeen
    ensures Run(Flushed(read), []) == Ok(Flushed(read))
    ensures Delivers(Flushed(read), [[]], Ok(read.(pendingCr := true)))
  {
    LastRow(Flushed(read), []);
  }

  lemma RowsOfNothing()
    ensures Rows([]) == [[]]
  {
  }

  lemma RowsUnfold(t: seq<Byte>)
    ensures var k := FirstBreak(t);
            && (k == |t| ==> Rows(t) == [t] && t[..k] == t && t[k..] == [])
            && (k < |t| ==> IsBreak(t[k..][0]))
            && (k < |t| ==> Rows(t) == [t[..k]] + Rows(t[k..][BreakWidth(t[k..], 0)..]))
  {
    var k := FirstBreak(t);
    if k < |t| {
      assert t[k..][BreakWidth(t[k..], 0)..] == t[k + BreakWidth(t, k)..];
    }
  }

  lemma {:induction false} RunRows(st: State, t: seq<Byte>)
    requires Fresh(st) && forall b <- t :: b != EOF_MARK
    ensures Delivers(st, Rows(t), Run(st, t))
    decreases |t|
  {
    hide Run, Rows, GoodRow, Delivers, Numbered;
    var k := FirstBreak(t);
    var row, tail := t[..k], t[k..];
    var read := st.(line := row, numbered := Numbered(row));
    RowsUnfold(t);
    ReadFirstRow(st, t);
    if !GoodRow(row) {
      BadFirstRow(st, Rows(t), Run(st, t));
    } else if k == |t| {
      RunNothing(read);
      LastRow(st, row);
    } else {
      var rest := tail[BreakWidth(tail, 0)..];
      assert forall b <- rest :: b in tail;
      AfterBreak(read, tail, rest);
      if rest == [] && tail[0] == CR && BreakWidth(tail, 0) == 1 {
        PendingDeliversToo(read);
        RowsOfNothing();
      } else {
        RunRows(Flushed(read), rest);
      }
      OneMoreRow(st, row, Rows(rest), Run(st, t));
    }
  }

  lemma RunNothing(st: State)
    ensures Run(st, []) == Ok(st)
  {
  }

  /** Past a line break the machine goes on from the flushed state, up to a CR still pending. */
  lemma AfterBreak(read: State, tail: seq<Byte>, rest: seq<Byte>)
    requires !read.pendingCr && !read.eofSeen
    requires tail != [] && IsBreak(tail[0]) && rest == tail[BreakWidth(tail, 0)..]
    requires forall b <- tail :: b != EOF_MARK
    ensures rest != [] || tail[0] == LF || BreakWidth(tail, 0) == 2 ==>
              Run(read, tail) == Run(Flushed(read), rest)
    ensures rest == [] && tail[0] == CR && BreakWidth(tail, 0) == 1 ==>
              Run(read, tail) == Ok(read.(pendingCr := true))
  {
    var waiting := read.(pendingCr := true);
    assert tail == [tail[0]] + tail[1..];
    if tail[0] == CR {
      assert Step(read, CR) == Ok(waiting);
      if BreakWidth(tail, 0) == 2 {
        assert tail[1..][0] == LF && tail[1..][1..] == rest;
        assert Step(waiting, LF) == Ok(Flushed(read));
      } else if rest != [] {
        PendingCrEndsLine(waiting, rest);
      }
    }
  }

  lemma {:induction false} RunAfterEof(st: State, s: seq<Byte>)
    requires st.eofSeen
    ensures OnlyEofMarks(s) ==> Run(st, s) == Ok(st)
    ensures !OnlyEofMarks(s) ==> Run(st, s).Err?
    decreases |s|
  {
    if s != [] {
      assert s[0] in s && forall b :: b in s <==> b == s[0] || b in s[1..];
      if s[0] == EOF_MARK {
        RunAfterEof(st, s[1..]);
        assert Step(st, s[0]) == Ok(st);
      }
    }
  }

  lemma EofFinishesLine(st: State)
    requires !st.eofSeen
    ensures Step(st, EOF_MARK) == Ok(Flushed(st).(eofSeen := true))
  {
  }

  /** The machine accepts exactly the acceptable inputs and gives their canonical form. */
  lemma NormalizedIsCanonical(s: seq<Byte>)
    ensures Acceptable(s) ==> Normalized(s) == Ok(Canonical(s))
    ensures !Acceptable(s) ==> Normalized(s).Err?
  {
    hide Run, Rows, Step, AllGood, SomeNumbered, ProgramText, FirstEof, OnlyEofMarks;
    var k := FirstEof(s);
    var text, tail := s[..k], s[k..];
    assert s == text + tail;
    forall b | b in text ensures b != EOF_MARK {
      var i :| 0 <= i < k && text[i] == b;
      assert s[i] == b;
    }
    RunConcat(START, text, tail);
    RunRows(START, text);
    if AllGood(Rows(text)) {
      var read := Run(START, text).value;
      if tail == [] {
        RunNothing(read);
        NoEofMarks();
        assert s == text && Run(START, s) == Ok(read);
        assert Flushed(read).done == ProgramText(Rows(text));
        if Acceptable(s) {
          assert Close(read) == Ok(Canonical(s));
        }
      } else {
        EofFinishesLine(read);
        FirstByteThenRest(read, tail);
        var ended := Flushed(read).(eofSeen := true);
        assert Run(START, s) == Run(ended, tail[1..]);
        RunAfterEof(ended, tail[1..]);
        if Acceptable(s) {
          assert Run(START, s) == Ok(ended);
          assert ended.done == ProgramText(Rows(text));
          assert ended.sawStatement;
          assert Close(ended) == Ok(Canonical(s));
        }
      }
    }
  }

  lemma NoEofMarks()
    ensures OnlyEofMarks([])
  {
  }

  lemma FirstByteThenRest(st: State, s: seq<Byte>)
    requires s != [] && Step(st, s[0]).Ok?
    ensures Run(st, s) == Run(Step(st, s[0]).value, s[1..])
    ensures s[0] == EOF_MARK ==> (OnlyEofMarks(s) <==> OnlyEofMarks(s[1..]))
  {
    assert forall b :: b in s <==> b == s[0] || b in s[1..];
  }

  // ------------------------------------------------------------ idempotence

  /** The non-blank rows of a text. */
  function ProgramRows(rows: seq<seq<Byte>>): seq<seq<Byte>> {
    if rows == [] then []
    else (if Numbered(rows[0]) then [rows[0]] else []) + ProgramRows(rows[1..])
  }

  predicate CleanRow(row: seq<Byte>) {
    GoodRow(row) && Numbered(row) && forall b <- row :: !IsBreak(b) && b != EOF_MARK
  }

  lemma {:induction false} FirstBreakOfRow(row: seq<Byte>, rest: seq<Byte>)
    requires forall b <- row :: !IsBreak(b)
    ensures FirstBreak(row + CRLF + rest) == |row|
    decreases |row|
  {
    var t := row + CRLF + rest;
    if row != [] {
      assert row[0] in row && forall b <- row[1..] :: b in row;
      assert t[1..] == row[1..] + CRLF + rest;
      FirstBreakOfRow(row[1..], rest);
    }
  }

  lemma RowsOfRow(row: seq<Byte>, rest: seq<Byte>)
    requires forall b <- row :: !IsBreak(b)
    ensures Rows(row + CRLF + rest) == [row] + Rows(rest)
  {
    var t := row + CRLF + rest;
    FirstBreakOfRow(row, rest);
    assert t[|row|] == CR && t[|row| + 1] == LF;
    assert t[..|row|] == row && t[|row| + 2..] == rest;
  }

  /** Clean program lines, joined and split again, are the same lines and one empty row. */
  lemma {:induction false} RowsOfProgram(rows: seq<seq<Byte>>)
    requires forall row <- rows :: CleanRow(row)
    ensures Rows(ProgramText(rows)) == rows + [[]]
    ensures forall b <- ProgramText(rows) :: b != EOF_MARK
    decreases |rows|
  {
    hide Rows, FirstBreak, Numbered, GoodRow;
    if rows != [] {
      var row, rest := rows[0], ProgramText(rows[1..]);
      assert row in rows && CleanRow(row);
      forall other | other in rows[1..] ensures CleanRow(other) {
        assert other in rows;
      }
      RowsOfProgram(rows[1..]);
      RowsOfRow(row, rest);
      assert ProgramText(rows) == row + CRLF + rest;
      assert rows + [[]] == [row] + (rows[1..] + [[]]);
    } else {
      RowsOfNothing();
    }
  }

  lemma {:induction false} BlankRowsVanish(rows: seq<seq<Byte>>)
    ensures ProgramText(ProgramRows(rows)) == ProgramText(rows)
    ensures ProgramText(rows + [[]]) == ProgramText(rows)
    ensures SomeNumbered(rows) ==> ProgramRows(rows) != []
    ensures forall row <- ProgramRows(rows) :: row in rows && Numbered(row)
    decreases |rows|
  {
    if rows == [] {
      var one: seq<seq<Byte>> := [[]];
      assert one[1..] == [];
      assert ProgramText(one) == [];
      assert rows + [[]] == [[]];
    } else {
      BlankRowsVanish(rows[1..]);
      assert (rows + [[]])[0] == rows[0] && (rows + [[]])[1..] == rows[1..] + [[]];
      assert forall row :: row in rows <==> row == rows[0] || row in rows[1..];
      var tail := ProgramRows(rows[1..]);
      if Numbered(rows[0]) {
        assert ProgramRows(rows) == [rows[0]] + tail;
        assert ProgramRows(rows)[1..] == tail;
      } else {
        assert ProgramRows(rows) == tail;
      }
    }
  }

  lemma {:induction false} RowsHaveNoBreaks(t: seq<Byte>)
    requires forall b <- t :: b != EOF_MARK
    ensures forall row <- Rows(t), b <- row :: !IsBreak(b) && b != EOF_MARK
    decreases |t|
  {
    var k := FirstBreak(t);
    var row := t[..k];
    forall b | b in row ensures !IsBreak(b) && b != EOF_MARK {
      var i :| 0 <= i < |row| && row[i] == b;
      assert t[i] == b && b in t;
    }
    if k < |t| {
      var rest := t[k + BreakWidth(t, k)..];
      assert forall b <- rest :: b in t;
      RowsHaveNoBreaks(rest);
    }
  }

  lemma {:induction false} EofAfterText(t: seq<Byte>)
    requires forall b <- t :: b != EOF_MARK
    ensures FirstEof(t + [EOF_MARK]) == |t|
    decreases |t|
  {
    if t != [] {
      assert t[0] in t && forall b <- t[1..] :: b in t;
      assert (t + [EOF_MARK])[1..] == t[1..] + [EOF_MARK];
      EofAfterText(t[1..]);
    }
  }

  lemma TextHasNoEof(s: seq<Byte>)
    ensures forall b <- Text(s) :: b != EOF_MARK
  {
    forall b | b in Text(s) ensures b != EOF_MARK {
      var i :| 0 <= i < |Text(s)| && Text(s)[i] == b;
      assert s[i] == b;
    }
  }

  /** The canonical form of an acceptable listing is acceptable, and its own canonical form. */
  lemma CanonicalIsFixed(s: seq<Byte>)
    requires Acceptable(s)
    ensures Acceptable(Canonical(s)) && Canonical(Canonical(s)) == Canonical(s)
  {
    hide Rows, FirstEof, ProgramText, ProgramRows, Numbered, FirstBreak, GoodRow;
    var rows := Rows(Text(s));
    var program := ProgramRows(rows);
    var out := Canonical(s);
    ProgramRowsAreClean(s);
    BlankRowsVanish(rows);
    RowsOfProgram(program);
    assert out == ProgramText(program) + [EOF_MARK];
    EofAfterText(ProgramText(program));
    assert Text(out) == ProgramText(program);
    assert out[FirstEof(out)..] == [EOF_MARK];
    var again := Rows(Text(out));
    assert again == program + [[]];
    BlankRowsVanish(program);
    assert program[0] in program && program[0] in again;
    EmptyRowIsGood();
    forall row | row in again ensures GoodRow(row) {
      assert row == [] || (row in program && CleanRow(row));
    }
  }

  lemma ProgramRowsAreClean(s: seq<Byte>)
    requires Acceptable(s)
    ensures forall row <- ProgramRows(Rows(Text(s))) :: CleanRow(row)
  {
    hide Rows, FirstEof, ProgramText, ProgramRows, Numbered, FirstBreak, GoodRow;
    var rows := Rows(Text(s));
    TextHasNoEof(s);
    RowsHaveNoBreaks(Text(s));
    BlankRowsVanish(rows);
    forall row | row in ProgramRows(rows) ensures CleanRow(row) {
      assert row in rows;
    }
  }

  /** Normalising a normalised listing changes nothing. */
  lemma NormalizationIsIdempotent(s: seq<Byte>)
    requires Normalized(s).Ok?
    ensures Normalized(Normalized(s).value) == Normalized(s)
  {
    hide Normalized, Acceptable, Canonical;
    NormalizedIsCanonical(s);
    CanonicalIsFixed(s);
    NormalizedIsCanonical(Canonical(s));
  }

  lemma EmptyRowIsGood()
    ensures GoodRow([])
  {
  }

  // ------------------------------------------------------------ the streaming machine

  /** A staged output file: bytes and a position, written, sought and truncated. */
  class OutputFile {
    var content: seq<Byte>
    var position: nat

    constructor ()
      ensures content == [] && position == 0
    {
      content, position := [], 0;
    }

    /** Writes at the position, over what is there. */
    method Write(data: seq<Byte>)
      requires position <= |content|
      modifies this
      ensures position == old(position) + |data| <= |content|
      ensures content[..position] == old(content)[..old(position)] + data
      ensures content[position..] ==
        if position <= |old(content)| then old(content)[position..] else []
    {
      var end := position + |data|;
      content := content[..position] + data + (if end <= |content| then content[end..] else []);
      position := end;
    }

    method Seek(to: nat)
      requires to <= |content|
      modifies this`position
      ensures position == to
    {
      position := to;
    }

    /** Cuts the file at the position. */
    method Truncate()
      requires position <= |content|
      modifies this`content
      ensures content == old(content)[..position]
    {
      content := content[..position];
    }
  }

  class Normalizer {
    const output: OutputFile
    const chunkSize: nat
    var lineStart: nat
    var lineNumbered: bool
    var sawStatement: bool
    var pendingCr: bool
    var eofSeen: bool
    var pendingOutput: seq<Byte>

    /** Finished lines are in the file; the current one is in the file's tail and the buffer. */
    ghost predicate Valid()
      reads this, output
    {
      && output.position == |output.content|
      && lineStart <= |output.content|
      && (!lineNumbered ==> pendingOutput == [])
      && (eofSeen ==> lineStart == |output.content| && pendingOutput == [])
    }

    ghost function Abs(): State
      reads this, output
      requires Valid()
    {
      State(output.content[..lineStart], output.content[lineStart..] + pendingOutput,
            lineNumbered, sawStatement, pendingCr, eofSeen)
    }

    constructor (chunkSize: nat)
      ensures fresh(output) && this.chunkSize == chunkSize
      ensures Valid() && Abs() == START
    {
      output := new OutputFile();
      this.chunkSize := chunkSize;
      lineStart, lineNumbered, sawStatement := 0, false, false;
      pendingCr, eofSeen, pendingOutput := false, false, [];
    }

    method FlushPending()
      requires Valid()
      modifies this`pendingOutput, output
      ensures Valid() && Abs() == old(Abs()) && pendingOutput == []
    {
      if pendingOutput != [] {
        output.Write(pendingOutput);
        assert output.content == old(output.content) + pendingOutput;
        pendingOutput := [];
      }
    }

    method FinishCurrentLine()
      requires Valid()
      modifies this, output
      ensures Valid() && Abs() == FinishLine(old(Abs()))
      ensures lineStart == |output.content| && pendingOutput == []
    {
      if lineNumbered {
        FlushPending();
        ghost var written := output.content;
        output.Write(CRLF);
        assert output.content == written + CRLF;
        sawStatement := true;
      } else {
        output.Seek(lineStart);
        output.Truncate();
      }
      lineStart := output.position;
      lineNumbered := false;
    }

    /** One source byte. */
    method Accept(value: Byte) returns (error: Option<ListingError>)
      requires Valid()
      modifies this, output
      ensures Valid()
      ensures error.None? ==> Step(old(Abs()), value) == Ok(Abs())
      ensures error.Some? ==> Step(old(Abs()), value) == Err(error.value)
    {
      if eofSeen {
        return if value != EOF_MARK then Some(DataAfterEof) else None;
      }
      if pendingCr {
        FinishCurrentLine();
        pendingCr := false;
        if value == LF {
          return None;
        }
      }
      if value == EOF_MARK {
        FinishCurrentLine();
        eofSeen := true;
      } else if value == CR {
        pendingCr := true;
      } else if value == LF {
        FinishCurrentLine();
      } else if value < 0x20 && value != TAB {
        return Some(ControlByte(value));
      } else {
        error := AcceptText(value);
        return;
      }
      return None;
    }

    method AcceptText(value: Byte) returns (error: Option<ListingError>)
      requires Valid() && !eofSeen && (value >= 0x20 || value == TAB)
      modifies this, output
      ensures Valid()
      ensures error.None? ==> TakeText(old(Abs()), value) == Ok(Abs())
      ensures error.Some? ==> TakeText(old(Abs()), value) == Err(error.value)
    {
      ghost var line := Abs().line;
      if !lineNumbered {
        if value == TAB || value == SPACE {
          output.Write([value]);
          assert output.content == old(output.content) + [value];
          assert Abs().line == line + [value];
          assert Abs().done == old(Abs()).done;
          return None;
        }
        if !(0x30 <= value <= 0x39) {
          return Some(MissingLineNumber);
        }
        lineNumbered := true;
      }
      pendingOutput := pendingOutput + [value];
      assert Abs().line == line + [value];
      if |pendingOutput| >= chunkSize {
        FlushPending();
      }
      return None;
    }

    /** After the last read. */
    method Conclude() returns (error: Option<ListingError>)
      requires Valid()
      modifies this, output
      ensures error.None? ==> Close(old(Abs())) == Ok(output.content)
      ensures error.Some? ==> Close(old(Abs())) == Err(error.value)
    {
      if pendingCr {
        FinishCurrentLine();
      } else if !eofSeen {
        FinishCurrentLine();
      }
      if !sawStatement {
        return Some(NoProgramLines);
      }
      ghost var lines := output.content;
      assert Abs().done == lines;
      output.Write([EOF_MARK]);
      assert output.content == lines + [EOF_MARK];
      return None;
    }
  }

  /** Reads the source in blocks of `chunkSize`; the result does not depend on that size. */
  method NormalizeStream(source: seq<Byte>, chunkSize: nat) returns (r: Result<seq<Byte>, ListingError>)
    requires chunkSize > 0
    ensures r == Normalized(source)
  {
    hide Step, Close;
    var machine := new Normalizer(chunkSize);
    var at := 0;
    assert source[0..] == source;
    while at < |source|
      invariant at <= |source| && fresh(machine) && fresh(machine.output) && machine.Valid()
      invariant Run(machine.Abs(), source[at..]) == Run(START, source)
    {
      var next := if at + chunkSize < |source| then at + chunkSize else |source|;
      var block := source[at..next];
      for index := 0 to |block|
        invariant machine.Valid()
        invariant Run(machine.Abs(), source[at + index..]) == Run(START, source)
      {
        ghost var rest := source[at + index..];
        assert rest[0] == block[index] && rest[1..] == source[at + index + 1..];
        var error := machine.Accept(block[index]);
        if error.Some? {
          return Err(error.value);
        }
      }
      at := next;
    }
    assert source[at..] == [];
    var error := machine.Conclude();
    return if error.Some? then Err(error.value) else Ok(machine.output.content);
  }

  // ------------------------------------------------------------ which sources are listings

  const DOT_BAS: seq<Byte> := [0x2E, 0x62, 0x61, 0x73]

  const TOKENIZED: Byte := 0xFF

  function Lower(b: Byte): Byte {
    if 0x41 <= b <= 0x5A then b + 0x20 else b
  }

  /** What follows the last separator of a target path. */
  function FileName(path: seq<Byte>): seq<Byte> {
    if path == [] || path[|path| - 1] == 0x2F || path[|path| - 1] == 0x5C then []
    else FileName(path[..|path| - 1]) + [path[|path| - 1]]
  }

  predicate NamesBasic(path: seq<Byte>) {
    var name := FileName(path);
    && |name| >= 4
    && forall i | 0 <= i < 4 :: Lower(name[|name| - 4 + i]) == DOT_BAS[i]
  }

  predicate IsListing(source: seq<Byte>, path: seq<Byte>) {
    NamesBasic(path) && (source == [] || source[0] != TOKENIZED)
  }

  /**
   * The bytes the MSX is to hold: a listing in its canonical form, or not at all when it has
   * none; any other file as it is.
   */
  function Destined(source: seq<Byte>, path: seq<Byte>): Option<seq<Byte>> {
    if !IsListing(source, path) then Some(source)
    else if Acceptable(source) then Some(Canonical(source))
    else None
  }

  method PrepareBasicSource(source: seq<Byte>, path: seq<Byte>, chunkSize: nat)
    returns (r: Result<seq<Byte>, ListingError>)
    requires chunkSize > 0
    ensures r.Ok? <==> Destined(source, path).Some?
    ensures r.Ok? ==> Destined(source, path) == Some(r.value)
  {
    hide NamesBasic, Normalized, Acceptable, Canonical;
    if !NamesBasic(path) {
      return Ok(source);
    }
    if source != [] && source[0] == TOKENIZED {
      return Ok(source);
    }
    NormalizedIsCanonical(source);
    r := NormalizeStream(source, chunkSize);
  }

  /** A file fetched back and sent again under a BASIC name arrives unchanged. */
  lemma DestinedIsFixed(source: seq<Byte>, path: seq<Byte>)
    requires Destined(source, path).Some?
    ensures var sent := Destined(source, path).value;
            Destined(sent, path) == Some(sent)
  {
    hide NamesBasic, Acceptable, Canonical;
    if IsListing(source, path) {
      CanonicalIsFixed(source);
    }
  }
}

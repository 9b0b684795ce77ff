/**
 * Listings told from the other side: a text put together from program lines, empty lines and any
 * line ends is normalised to its program lines, and every text that is accepted is one of these.
 */
module BasicLines {
  import opened Octets
  import opened Bytes
  import opened BasicListing

  /** A program line is a number after blanks; an empty one consists of blanks. */
  datatype Line = Program(lead: seq<Byte>, digit: Byte, rest: seq<Byte>) | Empty(lead: seq<Byte>)

  /** A line and the one or two octets that end it. */
  datatype Ended = Ended(line: Line, end: seq<Byte>)

  predicate Proper(l: Line) {
    && (forall b <- l.lead :: b == 0x20 || b == 0x09)
    && (l.Program? ==> 0x30 <= l.digit <= 0x39 && forall b <- l.rest :: b >= 0x20 || b == 0x09)
  }

  function Written(l: Line): seq<Byte> {
    match l
    case Program(lead, digit, rest) => lead + [digit] + rest
    case Empty(lead) => lead
  }

  /** The text as somebody typed it; what comes after the last line end may be empty. */
  function Typed(lines: seq<Ended>, last: Line): seq<Byte> {
    if lines == [] then Written(last)
    else Written(lines[0].line) + lines[0].end + Typed(lines[1..], last)
  }

  /** Lines end in CR, LF or both; a CR on its own is not followed by LF. */
  predicate WellTyped(lines: seq<Ended>, last: Line) {
    if lines == [] then Proper(last)
    else
      && Proper(lines[0].line) && WellTyped(lines[1..], last)
      && (lines[0].end == [0x0D] || lines[0].end == [0x0A] || lines[0].end == [0x0D, 0x0A])
      && (lines[0].end == [0x0D] && Typed(lines[1..], last) != [] ==> Typed(lines[1..], last)[0] != 0x0A)
  }

  function SavedLine(l: Line): seq<Byte> {
    if l.Program? then Written(l) + [0x0D, 0x0A] else []
  }

  /** The program lines in order, each ended by CR and LF. */
  function Saved(lines: seq<Ended>, last: Line): seq<Byte> {
    if lines == [] then SavedLine(last) else SavedLine(lines[0].line) + Saved(lines[1..], last)
  }

  predicate HasProgram(lines: seq<Ended>, last: Line) {
    last.Program? || exists l <- lines :: l.line.Program?
  }

  // ------------------------------------------------------------ lines and rows

  lemma {:induction false} LeadIsSkipped(lead: seq<Byte>, tail: seq<Byte>)
    requires forall b <- lead :: b == 0x20 || b == 0x09
    ensures Numbered(lead + tail) <==> Numbered(tail)
  {
    if lead == [] {
      assert lead + tail == tail;
    } else {
      assert lead[0] in lead && forall b <- lead[1..] :: b in lead;
      assert (lead + tail)[1..] == lead[1..] + tail;
      LeadIsSkipped(lead[1..], tail);
    }
  }

  lemma LineIsGood(l: Line)
    requires Proper(l)
    ensures GoodRow(Written(l)) && (Numbered(Written(l)) <==> l.Program?)
    ensures forall b <- Written(l) :: !IsBreak(b) && b != EOF_MARK
  {
    match l
    case Program(lead, digit, rest) =>
      LeadIsSkipped(lead, [digit] + rest);
      assert Written(l) == lead + ([digit] + rest);
      assert forall b <- Written(l) :: b in lead || b == digit || b in rest;
    case Empty(lead) =>
      LeadIsSkipped(lead, []);
      assert lead + [] == lead;
  }

  /** A good row is a line. */
  lemma {:induction false} RowIsLine(row: seq<Byte>) returns (l: Line)
    requires GoodRow(row)
    ensures Proper(l) && Written(l) == row
  {
    if Blank(row) {
      l := Empty(row);
    } else {
      assert row[0] in row;
      if IsDigit(row[0]) {
        assert forall b <- row[1..] :: b in row;
        l := Program([], row[0], row[1..]);
      } else {
        FirstAndRest(row);
        var tail := RowIsLine(row[1..]);
        assert !Blank(row[1..]) && tail.Program?;
        l := Program([row[0]] + tail.lead, tail.digit, tail.rest);
        assert Written(l) == [row[0]] + Written(tail);
      }
    }
  }

  lemma {:induction false} BreakAfter(row: seq<Byte>, b: Byte, rest: seq<Byte>)
    requires IsBreak(b) && forall c <- row :: !IsBreak(c)
    ensures FirstBreak(row + [b] + rest) == |row|
    decreases |row|
  {
    var t := row + [b] + rest;
    if row != [] {
      assert row[0] in row && forall c <- row[1..] :: c in row;
      assert t[1..] == row[1..] + [b] + rest;
      BreakAfter(row[1..], b, rest);
    }
  }

  lemma {:induction false} NoBreak(row: seq<Byte>)
    requires forall c <- row :: !IsBreak(c)
    ensures FirstBreak(row) == |row|
  {
    if row != [] {
      assert row[0] in row && forall c <- row[1..] :: c in row;
      NoBreak(row[1..]);
    }
  }

  function AllWritten(lines: seq<Ended>, last: Line): seq<seq<Byte>> {
    if lines == [] then [Written(last)] else [Written(lines[0].line)] + AllWritten(lines[1..], last)
  }

  /** Splitting the text gives the lines back. */
  lemma {:induction false} RowsOfTyped(lines: seq<Ended>, last: Line)
    requires WellTyped(lines, last)
    ensures Rows(Typed(lines, last)) == AllWritten(lines, last)
    ensures forall b <- Typed(lines, last) :: b != EOF_MARK
    decreases |lines|
  {
    hide Proper, Numbered, GoodRow, FirstBreak, Rows;
    var t := Typed(lines, last);
    if lines == [] {
      LineIsGood(last);
      NoBreak(t);
      RowsUnfold(t);
    } else {
      LineIsGood(lines[0].line);
      RowsOfTyped(lines[1..], last);
      FirstRowIs(Written(lines[0].line), lines[0].end, Typed(lines[1..], last));
    }
  }

  lemma FirstRowIs(row: seq<Byte>, end: seq<Byte>, rest: seq<Byte>)
    requires end == [0x0D] || end == [0x0A] || end == [0x0D, 0x0A]
    requires end == [0x0D] && rest != [] ==> rest[0] != 0x0A
    requires forall c <- row :: !IsBreak(c)
    ensures Rows(row + end + rest) == [row] + Rows(rest)
  {
    hide Rows, FirstBreak;
    var t := row + end + rest;
    assert t == row + [end[0]] + (end[1..] + rest);
    BreakAfter(row, end[0], end[1..] + rest);
    RowsUnfold(t);
    var tail := t[|row|..];
    assert tail == end + rest && BreakWidth(tail, 0) == |end|;
    assert t[..|row|] == row && tail[|end|..] == rest;
  }

  lemma {:induction false} ProgramIsSaved(lines: seq<Ended>, last: Line)
    requires WellTyped(lines, last)
    ensures AllGood(AllWritten(lines, last)) && ProgramText(AllWritten(lines, last)) == Saved(lines, last)
    ensures SomeNumbered(AllWritten(lines, last)) <==> HasProgram(lines, last)
    decreases |lines|
  {
    hide Proper, Numbered, GoodRow, Typed;
    var all := AllWritten(lines, last);
    if lines == [] {
      LineIsGood(last);
      assert all[0] in all && ProgramText(all[1..]) == [];
    } else {
      LineIsGood(lines[0].line);
      ProgramIsSaved(lines[1..], last);
      assert all[1..] == AllWritten(lines[1..], last);
      assert forall row :: row in all <==> row == all[0] || row in all[1..];
      assert forall l :: l in lines <==> l == lines[0] || l in lines[1..];
    }
  }

  // ------------------------------------------------------------ the theorem

  lemma {:induction false} MarksAfter(t: seq<Byte>, marks: seq<Byte>)
    requires (forall b <- t :: b != EOF_MARK) && OnlyEofMarks(marks)
    ensures FirstEof(t + marks) == |t|
    decreases |t|
  {
    var s := t + marks;
    if t != [] {
      assert t[0] in t && forall b <- t[1..] :: b in t;
      assert s[1..] == t[1..] + marks;
      MarksAfter(t[1..], marks);
    } else if marks != [] {
      assert s == marks && marks[0] in marks;
    }
  }

  /** A text of proper lines, with any number of end marks, is normalised to its program lines. */
  lemma TypedIsSaved(lines: seq<Ended>, last: Line, marks: seq<Byte>)
    requires WellTyped(lines, last) && forall b <- marks :: b == 0x1A
    ensures if HasProgram(lines, last) then Normalized(Typed(lines, last) + marks) == Ok(Saved(lines, last) + [0x1A])
            else Normalized(Typed(lines, last) + marks).Err?
  {
    hide Normalized, WellTyped, Typed, HasProgram, Rows, FirstEof, AllGood, SomeNumbered, ProgramText;
    var t := Typed(lines, last);
    RowsOfTyped(lines, last);
    ProgramIsSaved(lines, last);
    MarksAfter(t, marks);
    assert (t + marks)[..|t|] == t && (t + marks)[|t|..] == marks;
    NormalizedIsCanonical(t + marks);
  }

  /** Whatever is accepted was typed like that. */
  lemma AcceptedIsTyped(s: seq<Byte>) returns (lines: seq<Ended>, last: Line, marks: seq<Byte>)
    requires Normalized(s).Ok?
    ensures WellTyped(lines, last) && HasProgram(lines, last) && s == Typed(lines, last) + marks
    ensures forall b <- marks :: b == 0x1A
  {
    hide Normalized, WellTyped, Typed, HasProgram, Rows, FirstEof, AllGood, SomeNumbered;
    NormalizedIsCanonical(s);
    TextHasNoEof(s);
    marks := s[FirstEof(s)..];
    lines, last := RowsAreLines(Text(s));
    RowsOfTyped(lines, last);
    ProgramIsSaved(lines, last);
  }

  /** The first row of a text, its end, and what follows. */
  lemma CutAtBreak(t: seq<Byte>) returns (end: seq<Byte>, rest: seq<Byte>)
    requires FirstBreak(t) < |t|
    ensures t == t[..FirstBreak(t)] + end + rest && |rest| < |t|
    ensures Rows(t) == [t[..FirstBreak(t)]] + Rows(rest)
    ensures end == [0x0D] || end == [0x0A] || end == [0x0D, 0x0A]
    ensures end == [0x0D] && rest != [] ==> rest[0] != 0x0A
    ensures forall b <- rest :: b in t
  {
    var k := FirstBreak(t);
    hide FirstBreak, Rows;
    var width := BreakWidth(t, k);
    end, rest := t[k..k + width], t[k + width..];
    RowsUnfold(t);
    assert t[k..][BreakWidth(t[k..], 0)..] == rest;
    assert IsBreak(t[k..][0]) && t[k..][0] == t[k];
    assert if width == 1 then end == [t[k]] else end == [t[k], t[k + 1]];
    assert width == 1 && rest != [] ==> rest[0] == t[k + 1];
  }

  lemma OneLineMore(line: Line, end: seq<Byte>, more: seq<Ended>, last: Line)
    requires Proper(line) && WellTyped(more, last)
    requires end == [0x0D] || end == [0x0A] || end == [0x0D, 0x0A]
    requires end == [0x0D] && Typed(more, last) != [] ==> Typed(more, last)[0] != 0x0A
    ensures WellTyped([Ended(line, end)] + more, last)
    ensures Typed([Ended(line, end)] + more, last) == Written(line) + end + Typed(more, last)
  {
    hide Proper;
    var all := [Ended(line, end)] + more;
    assert all[1..] == more;
  }

  lemma {:induction false} RowsAreLines(t: seq<Byte>) returns (lines: seq<Ended>, last: Line)
    requires AllGood(Rows(t)) && forall b <- t :: b != EOF_MARK
    ensures WellTyped(lines, last) && Typed(lines, last) == t
    decreases |t|
  {
    hide GoodRow, Numbered, FirstBreak, Rows, Proper;
    RowsUnfold(t);
    var k := FirstBreak(t);
    assert Rows(t)[0] == t[..k] && Rows(t)[0] in Rows(t);
    var line := RowIsLine(t[..k]);
    if k == |t| {
      lines, last := [], line;
    } else {
      var end, rest := CutAtBreak(t);
      assert forall row <- Rows(rest) :: row in Rows(t);
      var more, final := RowsAreLines(rest);
      OneLineMore(line, end, more, final);
      lines, last := [Ended(line, end)] + more, final;
    }
  }
}

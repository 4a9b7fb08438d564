/** The place of a piece of code in its file: one line, and a range in it.
    Source: task-maker-diagnostics/src/span.rs. */
module CodeSpans {
  import opened Dag

  // The text of a file, in bytes.
  type Text = seq<bv8>

  const NEWLINE: bv8 := 10
  // A machine word holds the numbers below this; sums wrap around.
  const USIZE_RANGE: nat := 0x1_0000_0000_0000_0000
  // No buffer is longer than this.
  const MAX_LENGTH: nat := 0x7FFF_FFFF_FFFF_FFFF

  datatype CodeSpan = CodeSpan(fileName: string, lineNumber: nat, fileOffset: nat, lineOffset: nat, len: nat, line: Text)

  datatype SpanResult = Ok(span: CodeSpan) | OnNewline | Multiline | PastEnd

  // ---------------------------------------------------------------- lines

  ghost predicate OneLine(content: Text, from: nat, to: nat) {
    from <= to <= |content| && forall i :: from <= i < to ==> content[i] != NEWLINE
  }

  // The line that `content[from..to]` is, newline excluded.
  ghost predicate IsLine(content: Text, from: nat, to: nat) {
    && OneLine(content, from, to)
    && (from > 0 ==> content[from - 1] == NEWLINE)
    && (to < |content| ==> content[to] == NEWLINE)
  }

  ghost function Newlines(content: Text, n: nat): nat
    requires n <= |content|
  {
    if n == 0 then 0 else Newlines(content, n - 1) + if content[n - 1] == NEWLINE then 1 else 0
  }

  ghost function LineStart(content: Text, offset: nat): nat
    requires offset <= |content|
  {
    if offset == 0 || content[offset - 1] == NEWLINE then offset else LineStart(content, offset - 1)
  }

  lemma {:induction false} LineStartIs(content: Text, from: nat, offset: nat)
    requires OneLine(content, from, offset) && (from > 0 ==> content[from - 1] == NEWLINE)
    ensures LineStart(content, offset) == from && Newlines(content, offset) == Newlines(content, from)
  {
    if offset > from {
      LineStartIs(content, from, offset - 1);
    }
  }

  /** The end of the line that starts here. */
  method LineEnd(content: Text, start: nat) returns (end: nat)
    requires start <= |content|
    ensures OneLine(content, start, end) && (end < |content| ==> content[end] == NEWLINE)
  {
    end := start;
    while end < |content| && content[end] != NEWLINE
      invariant OneLine(content, start, end)
    {
      end := end + 1;
    }
  }

  // ---------------------------------------------------------------- spans

  /** The range is a piece of one line of the file, and does not start at a newline. */
  ghost predicate InOneLine(content: Text, offset: nat, len: nat) {
    offset < |content| && content[offset] != NEWLINE && OneLine(content, offset, offset + len)
  }

  ghost predicate InText(content: Text, offset: nat) {
    offset < |content| && content[offset] != NEWLINE
  }

  // The end of the range, counted from the start of its line, does not fit a machine word.
  ghost predicate Wraps(content: Text, offset: nat, len: nat)
    requires offset <= |content|
  {
    offset - LineStart(content, offset) + len >= USIZE_RANGE
  }

  // The ranges a span is given for.
  ghost predicate Given(content: Text, offset: nat, len: nat) {
    InOneLine(content, offset, len) || (InText(content, offset) && Wraps(content, offset, len))
  }

  /** The span says where the range is. */
  ghost predicate Describes(span: CodeSpan, content: Text, offset: nat, len: nat) {
    && span.fileOffset == offset <= |content| && span.len == len
    && span.lineOffset <= offset && span.lineOffset <= |span.line|
    && IsLine(content, offset - span.lineOffset, offset - span.lineOffset + |span.line|)
    && span.line == content[offset - span.lineOffset..offset - span.lineOffset + |span.line|]
    && span.lineNumber == 1 + Newlines(content, offset)
  }

  /** Find the line of a range. The range must not leave its line; but the test
      for that wraps around when the length is close to the largest number. */
  method FromStr(fileName: string, content: Text, offset: nat, len: nat) returns (r: SpanResult)
    requires |content| <= MAX_LENGTH && offset < USIZE_RANGE && len < USIZE_RANGE
    ensures r.Ok? <==> Given(content, offset, len)
    ensures r.PastEnd? <==> offset > |content|
    ensures r.OnNewline? <==> offset == |content| || (offset < |content| && content[offset] == NEWLINE)
    ensures r.Ok? ==> Describes(r.span, content, offset, len) && r.span.fileName == fileName
  {
    hide Newlines, LineStart, Given;
    var start, skipped := 0, 0;
    NoNewlines(content);
    while true
      invariant start <= |content| && start <= offset
      invariant start > 0 ==> content[start - 1] == NEWLINE
      invariant skipped == Newlines(content, start)
      decreases |content| - start
    {
      var end := LineEnd(content, start);
      var line := content[start..end];
      if start + |line| == offset {
        return OnNewline;
      }
      if start + |line| < offset {
        if end == |content| { return PastEnd; }
        NextLine(content, start, end);
        start, skipped := end + 1, skipped + 1;
        continue;
      }
      LineStartIs(content, start, offset);
      var lineOffset := offset - start;
      assert IsLine(content, start, end);
      WithinLine(content, start, end, offset, len);
      if (lineOffset + len) % USIZE_RANGE > |line| {
        return Multiline;
      }
      return Ok(CodeSpan(fileName, skipped + 1, offset, lineOffset, len, line));
    }
  }

  lemma NoNewlines(content: Text)
    ensures Newlines(content, 0) == 0
    ensures forall offset: nat, len: nat :: Given(content, offset, len) ==> InText(content, offset)
  {
  }

  lemma NextLine(content: Text, start: nat, end: nat)
    requires IsLine(content, start, end) && end < |content|
    ensures Newlines(content, end + 1) == Newlines(content, start) + 1
  {
    LineStartIs(content, start, end);
  }

  lemma WithinLine(content: Text, start: nat, end: nat, offset: nat, len: nat)
    requires |content| <= MAX_LENGTH && start <= offset < end && len < USIZE_RANGE && IsLine(content, start, end)
    requires LineStart(content, offset) == start
    ensures (offset - start + len) % USIZE_RANGE <= end - start <==> Given(content, offset, len)
  {
    var sum := offset - start + len;
    if sum >= USIZE_RANGE {
      assert sum % USIZE_RANGE == sum - USIZE_RANGE;
    } else {
      assert sum % USIZE_RANGE == sum;
      assert end < |content| ==> content[end] == NEWLINE;
    }
  }

  /** A span is given exactly for the ranges inside a line if and only if the
      end of the range does not wrap around. */
  lemma ExactUnlessWrapping(content: Text, offset: nat, len: nat)
    requires |content| <= MAX_LENGTH && len < USIZE_RANGE && InText(content, offset)
    ensures (Given(content, offset, len) <==> InOneLine(content, offset, len)) <==> !Wraps(content, offset, len)
  {
    LineStartBounds(content, offset);
  }

  lemma {:induction false} LineStartBounds(content: Text, offset: nat)
    requires offset <= |content|
    ensures LineStart(content, offset) <= offset
  {
    if offset > 0 && content[offset - 1] != NEWLINE {
      LineStartBounds(content, offset - 1);
    }
  }

  /** A length that wraps around: the span is given although the range leaves the file. */
  method AcceptsTooMuch() returns (r: SpanResult)
    ensures r.Ok? && r.span.len == USIZE_RANGE - 1 && |r.span.line| == 2
  {
    var content: Text := [97, 98];
    r := FromStr("file", content, 1, USIZE_RANGE - 1);
    assert LineStart(content, 1) == 0;
  }

  // Where a string may be cut: not inside the encoding of a character.
  predicate CharBoundary(line: Text, i: nat) {
    i == 0 || i == |line| || (i < |line| && line[i] & 0xC0 != 0x80)
  }

  /** The text of the span; `None` when the slice is refused, because its end
      wraps around to before its start or because it would cut a character. */
  function AsStr(span: CodeSpan): Option<Text>
    requires span.lineOffset <= |span.line|
  {
    var end := (span.lineOffset + span.len) % USIZE_RANGE;
    if span.lineOffset <= end <= |span.line| && CharBoundary(span.line, span.lineOffset) && CharBoundary(span.line, end)
    then Some(span.line[span.lineOffset..end])
    else None
  }

  // No line starts inside a character: true of any text in UTF-8.
  ghost predicate LinesStartCharacters(content: Text) {
    forall i :: 0 <= i < |content| && (i == 0 || content[i - 1] == NEWLINE) ==> content[i] & 0xC0 != 0x80
  }

  lemma SliceOfSlice(t: Text, a: nat, b: nat, c: nat, d: nat)
    requires a <= b <= |t| && c <= d <= b - a
    ensures t[a..b][c..d] == t[a + c..a + d]
  {
    assert forall i :: 0 <= i < d - c ==> t[a..b][c..d][i] == t[a + c + i];
  }

  /** The text of a span is the range it was made for; there is one if and only
      if the range wraps around nowhere and cuts no character. Such a range may
      well have got a span. Line number and line offset lead back to the offset. */
  lemma AsStrIsTheRange(span: CodeSpan, content: Text, offset: nat, len: nat)
    requires |content| <= MAX_LENGTH && len < USIZE_RANGE && LinesStartCharacters(content)
    requires Describes(span, content, offset, len) && Given(content, offset, len)
    ensures LineStart(content, offset) + span.lineOffset == offset
    ensures AsStr(span).Some? <==>
      !Wraps(content, offset, len) && CharBoundary(content, offset) && CharBoundary(content, offset + len)
    ensures AsStr(span).Some? ==> offset + len <= |content| && AsStr(span) == Some(content[offset..offset + len])
  {
    hide LinesStartCharacters, CharBoundary, LineStart, Newlines;
    var start, lo := offset - span.lineOffset, span.lineOffset;
    LineStartIs(content, start, offset);
    SameBoundary(span, content, offset, len, lo);
    if Wraps(content, offset, len) {
      assert (lo + len) % USIZE_RANGE == lo + len - USIZE_RANGE < lo;
    } else {
      InsideTheLine(span, content, offset, len);
      assert (lo + len) % USIZE_RANGE == lo + len;
      SameBoundary(span, content, offset, len, lo + len);
      SliceOfSlice(content, start, start + |span.line|, lo, lo + len);
    }
  }

  lemma InsideTheLine(span: CodeSpan, content: Text, offset: nat, len: nat)
    requires Describes(span, content, offset, len) && InOneLine(content, offset, len)
    ensures span.lineOffset + len <= |span.line|
  {
    var end := offset - span.lineOffset + |span.line|;
    assert end < |content| ==> content[end] == NEWLINE;
  }

  lemma SameBoundary(span: CodeSpan, content: Text, offset: nat, len: nat, i: nat)
    requires LinesStartCharacters(content) && Describes(span, content, offset, len) && i <= |span.line|
    ensures CharBoundary(span.line, i) <==> CharBoundary(content, offset - span.lineOffset + i)
  {
    var start := offset - span.lineOffset;
    if 0 < i < |span.line| {
      assert span.line[i] == content[start + i];
    } else if start + i < |content| {
      NewlineIsACharacter();
    }
  }

  lemma NewlineIsACharacter()
    ensures NEWLINE & 0xC0 != 0x80
  {
  }

  /** A span whose text is refused: the range is the second byte of a character. */
  method CutsACharacter() returns (r: SpanResult)
    ensures r.Ok? && r.span.lineOffset <= |r.span.line| && AsStr(r.span).None?
  {
    var content: Text := [0xC3, 0xA9];
    r := FromStr("file", content, 1, 1);
    assert LineStart(content, 1) == 0;
  }
}

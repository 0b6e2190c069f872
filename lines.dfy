/** The line count of `updateStats`: `text ? text.split(/\r\n|\r|\n/).length : 0`. */
module Lines {
  import opened CharClasses
  import opened Counting

  /** The length of the separator `/\r\n|\r|\n/` matches at the front of `s`:
      the alternatives are tried left to right, so CR LF is matched whole, and
      a CR or LF on its own is matched alone. Zero when no separator starts
      here. */
  function SeparatorLength(s: Text): (n: nat)
    ensures n <= |s| && n <= 2
    ensures n == 0 <==> s == [] || IsNotLineBreakUnit(s[0])
    ensures n == 1 <==> s != [] && IsLineBreakUnit(s[0]) && !(|s| >= 2 && s[0] == CR && s[1] == LF)
    ensures n == 2 <==> |s| >= 2 && s[0] == CR && s[1] == LF
  {
    if s == [] || IsNotLineBreakUnit(s[0]) then 0
    else if |s| >= 2 && s[0] == CR && s[1] == LF then 2
    else 1
  }

  /** `s.split(/\r\n|\r|\n/)`, following the string split algorithm of
      ECMAScript: `cur` is the line being collected; at a separator the line
      is emitted and a new one starts after it. The end of the text emits the
      last line, even when it is empty. */
  function SplitLinesFrom(s: Text, cur: Text): (r: seq<Text>)
    ensures |r| >= 1
    decreases |s|
  {
    if s == [] then [cur]
    else if IsLineBreakUnit(s[0]) then [cur] + SplitLinesFrom(s[SeparatorLength(s)..], [])
    else SplitLinesFrom(s[1..], cur + [s[0]])
  }

  function SplitLines(s: Text): seq<Text> {
    SplitLinesFrom(s, [])
  }

  /** The number of line endings, position by position: every LF ends a line,
      and a CR ends a line unless an LF follows it (the LF then ends it). */
  function LineBreaks(s: Text): nat
    decreases |s|
  {
    if s == [] then 0
    else (if s[0] == LF || (s[0] == CR && (|s| == 1 || s[1] != LF)) then 1 else 0) + LineBreaks(s[1..])
  }

  predicate IsLineFeed(c: CodeUnit) {
    c == LF
  }

  /** The line count shown by the widget: zero exactly for the empty text
      (the guard on `text`, without which the split would give one empty
      line), otherwise one more than the number of line endings, a trailing
      one included. */
  function LineCount(s: Text): (n: nat)
    ensures n == 0 <==> s == []
    ensures s != [] ==> n == 1 + LineBreaks(s)
  {
    if s == [] then 0
    else
      SplitLinesCount(s, []);
      |SplitLines(s)|
  }

  /** Every line ending is a CR or an LF, and every LF is a line ending; so
      the line count lies between one more than the LFs and one more than all
      CRs and LFs together. */
  lemma {:induction false} LineBreaksBounds(s: Text)
    ensures |Keep(s, IsLineFeed)| <= LineBreaks(s) <= |Keep(s, IsLineBreakUnit)|
    decreases |s|
  {
    if s != [] {
      LineBreaksBounds(s[1..]);
    }
  }

  /** Line endings add up over a concatenation, provided the join does not
      separate a CR from the LF that follows it. */
  lemma {:induction false} LineBreaksAppend(a: Text, b: Text)
    requires a == [] || b == [] || !(a[|a| - 1] == CR && b[0] == LF)
    ensures LineBreaks(a + b) == LineBreaks(a) + LineBreaks(b)
    decreases |a|
  {
    if a == [] {
      assert a + b == b;
    } else {
      assert (a + b)[1..] == a[1..] + b;
      LineBreaksAppend(a[1..], b);
    }
  }

  /** A text without CR or LF has no line ending. */
  lemma {:induction false} NoBreakNoLineBreaks(s: Text)
    requires NoLineBreak(s)
    ensures LineBreaks(s) == 0
    decreases |s|
  {
    if s != [] {
      NoBreakNoLineBreaks(s[1..]);
    }
  }

  /** A separator at the front is exactly one line ending, and it holds no
      code unit that a line keeps. */
  lemma SkipSeparator(s: Text)
    requires s != [] && IsLineBreakUnit(s[0])
    ensures LineBreaks(s) == 1 + LineBreaks(s[SeparatorLength(s)..])
    ensures Keep(s, IsNotLineBreakUnit) == Keep(s[SeparatorLength(s)..], IsNotLineBreakUnit)
  {
    if SeparatorLength(s) == 2 {
      assert s[1..][1..] == s[2..];
    }
  }

  /** The split yields one line more than there are line endings. */
  lemma {:induction false} SplitLinesCount(s: Text, cur: Text)
    ensures |SplitLinesFrom(s, cur)| == 1 + LineBreaks(s)
    decreases |s|
  {
    if s == [] {
    } else if IsLineBreakUnit(s[0]) {
      SkipSeparator(s);
      SplitLinesCount(s[SeparatorLength(s)..], []);
    } else {
      SplitLinesCount(s[1..], cur + [s[0]]);
    }
  }

  predicate NoLineBreak(line: Text) {
    forall j :: 0 <= j < |line| ==> IsNotLineBreakUnit(line[j])
  }

  /** No line holds a CR or an LF. */
  lemma {:induction false} SplitLinesNoBreaks(s: Text, cur: Text)
    requires NoLineBreak(cur)
    ensures forall k :: 0 <= k < |SplitLinesFrom(s, cur)| ==> NoLineBreak(SplitLinesFrom(s, cur)[k])
    decreases |s|
  {
    if s == [] {
    } else if IsLineBreakUnit(s[0]) {
      SplitLinesNoBreaks(s[SeparatorLength(s)..], []);
    } else {
      SplitLinesNoBreaks(s[1..], cur + [s[0]]);
    }
  }

  /** Joined in order, the lines are the text with its CRs and LFs removed:
      the split loses nothing but the separators. */
  lemma {:induction false} SplitLinesJoin(s: Text, cur: Text)
    ensures Concat(SplitLinesFrom(s, cur)) == cur + Keep(s, IsNotLineBreakUnit)
    decreases |s|
  {
    if s == [] {
      assert Concat([cur]) == cur + Concat([]);
    } else if IsLineBreakUnit(s[0]) {
      var after := s[SeparatorLength(s)..];
      SkipSeparator(s);
      SplitLinesJoin(after, []);
      ConcatCons(cur, SplitLinesFrom(after, []));
    } else {
      SplitLinesJoin(s[1..], cur + [s[0]]);
      assert Keep(s, IsNotLineBreakUnit) == [s[0]] + Keep(s[1..], IsNotLineBreakUnit);
    }
  }
}

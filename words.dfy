/** `calculateWordCount`: trim the text, split what remains on runs of
    whitespace, and count the pieces; a text that trims to nothing has no
    words. */
module Words {
  import opened CharClasses
  import opened Counting

  /** Drops the leading whitespace. This is also how far a greedy `\s+` match
      starting at the front reaches. What remains starts with a
      non-whitespace code unit, and is strictly shorter when the text started
      with whitespace. */
  function TrimStart(s: Text): (r: Text)
    ensures |r| <= |s|
    ensures s != [] && IsWhitespace(s[0]) ==> |r| < |s|
    ensures r == [] || IsNotWhitespace(r[0])
    decreases |s|
  {
    if s != [] && IsWhitespace(s[0]) then TrimStart(s[1..]) else s
  }

  /** Drops the trailing whitespace. What remains ends with a
      non-whitespace code unit. */
  function TrimEnd(s: Text): (r: Text)
    ensures |r| <= |s|
    ensures r == [] || IsNotWhitespace(r[|r| - 1])
    decreases |s|
  {
    if s != [] && IsWhitespace(s[|s| - 1]) then TrimEnd(s[..|s| - 1]) else s
  }

  /** `text.trim()`: empty exactly when the text is all whitespace, and
      otherwise starts and ends with a non-whitespace code unit. */
  function Trim(s: Text): (r: Text)
    ensures r == [] <==> forall i :: 0 <= i < |s| ==> IsWhitespace(s[i])
    ensures r != [] ==> IsNotWhitespace(r[0]) && IsNotWhitespace(r[|r| - 1])
  {
    TrimStartDropsWhitespace(s);
    TrimEndDropsWhitespace(TrimStart(s));
    TrimEnd(TrimStart(s))
  }

  /** TrimStart removes a prefix, and that prefix is all whitespace. */
  lemma {:induction false} TrimStartDropsWhitespace(s: Text)
    ensures TrimStart(s) == s[|s| - |TrimStart(s)|..]
    ensures forall i :: 0 <= i < |s| - |TrimStart(s)| ==> IsWhitespace(s[i])
    decreases |s|
  {
    if s != [] && IsWhitespace(s[0]) {
      TrimStartDropsWhitespace(s[1..]);
    }
  }

  /** TrimEnd removes a suffix, and that suffix is all whitespace. */
  lemma {:induction false} TrimEndDropsWhitespace(s: Text)
    ensures TrimEnd(s) == s[..|TrimEnd(s)|]
    ensures forall i :: |TrimEnd(s)| <= i < |s| ==> IsWhitespace(s[i])
    decreases |s|
  {
    if s != [] && IsWhitespace(s[|s| - 1]) {
      TrimEndDropsWhitespace(s[..|s| - 1]);
    }
  }

  /** `trim()` returns a slice of the text: everything before the slice and
      everything after it is whitespace. */
  lemma TrimIsSlice(s: Text)
    ensures var a := |s| - |TrimStart(s)|;
            a + |Trim(s)| <= |s| && Trim(s) == s[a..a + |Trim(s)|]
            && (forall i :: 0 <= i < a ==> IsWhitespace(s[i]))
            && (forall i :: a + |Trim(s)| <= i < |s| ==> IsWhitespace(s[i]))
  {
    var u := TrimStart(s);
    var a := |s| - |u|;
    TrimStartDropsWhitespace(s);
    TrimEndDropsWhitespace(u);
    var t := TrimEnd(u);
    assert Trim(s) == t;
    var b := a + |t|;
    assert u == s[a..];
    assert t == u[..|t|];
    assert u[..|t|] == s[a..b];
    forall i | b <= i < |s| ensures IsWhitespace(s[i]) {
      assert s[i] == u[i - a];
    }
  }

  /** Leading whitespace is dropped without reaching a final non-whitespace
      code unit. */
  lemma {:induction false} TrimStartKeepsLast(s: Text)
    requires s != [] && IsNotWhitespace(s[|s| - 1])
    ensures TrimStart(s) != [] && TrimStart(s)[|TrimStart(s)| - 1] == s[|s| - 1]
    decreases |s|
  {
    if IsWhitespace(s[0]) {
      TrimStartKeepsLast(s[1..]);
    }
  }

  /** `s.split(/\s+/)`, following the string split algorithm of ECMAScript:
      `cur` is the piece being collected; at a whitespace code unit the greedy
      match swallows the whole run, the piece is emitted and a new one starts.
      The end of the text emits the last piece, even when it is empty. */
  function SplitOnWhitespaceFrom(s: Text, cur: Text): (r: seq<Text>)
    ensures |r| >= 1
    decreases |s|
  {
    if s == [] then [cur]
    else if IsWhitespace(s[0]) then
      [cur] + SplitOnWhitespaceFrom(TrimStart(s), [])
    else
      SplitOnWhitespaceFrom(s[1..], cur + [s[0]])
  }

  function SplitOnWhitespace(s: Text): seq<Text> {
    SplitOnWhitespaceFrom(s, [])
  }

  /** The number of maximal runs of non-whitespace in `s`, counted as the
      positions where such a run starts; `afterSpace` says whether the code
      unit before `s` (or the start of the text) lets a run start there. */
  function RunStarts(s: Text, afterSpace: bool): nat
    decreases |s|
  {
    if s == [] then 0
    else (if IsNotWhitespace(s[0]) && afterSpace then 1 else 0) + RunStarts(s[1..], IsWhitespace(s[0]))
  }

  function RunCount(s: Text): nat {
    RunStarts(s, true)
  }

  /** `calculateWordCount(text)`: zero exactly for an empty or all-whitespace
      text, otherwise the number of maximal non-whitespace runs (so repeated
      inner whitespace never adds a word), and never more than the number of
      non-whitespace code units. */
  function WordCount(s: Text): (n: nat)
    ensures n == 0 <==> forall i :: 0 <= i < |s| ==> IsWhitespace(s[i])
    ensures n == RunCount(s)
    ensures n <= |RemoveWhitespace(s)|
  {
    var t := Trim(s);
    TrimPreservesRuns(s);
    RunsBounded(s, true);
    if t == [] then
      RunsOfWhitespace(s, true);
      0
    else
      SplitCount(t, []);
      |SplitOnWhitespace(t)|
  }

  /** The pieces of a trimmed, non-empty text are its words: each is
      non-empty and free of whitespace, and together, in order, they are the
      text with its whitespace removed. */
  lemma WordsAreTokens(s: Text)
    requires Trim(s) != []
    ensures forall k :: 0 <= k < |SplitOnWhitespace(Trim(s))| ==>
              SplitOnWhitespace(Trim(s))[k] != [] && NoWhitespace(SplitOnWhitespace(Trim(s))[k])
    ensures Concat(SplitOnWhitespace(Trim(s))) == RemoveWhitespace(s)
  {
    var t := Trim(s);
    SplitPiecesAreWords(t, []);
    SplitJoin(t, []);
    TrimKeepsNonWhitespace(s);
  }

  predicate NoWhitespace(w: Text) {
    forall j :: 0 <= j < |w| ==> IsNotWhitespace(w[j])
  }

  /** Splitting a text that does not end in whitespace yields one piece more
      than the number of runs that start after a whitespace code unit. */
  lemma {:induction false} SplitCount(s: Text, cur: Text)
    requires s == [] || IsNotWhitespace(s[|s| - 1])
    ensures |SplitOnWhitespaceFrom(s, cur)| == RunStarts(s, false) + 1
    decreases |s|
  {
    if s == [] {
    } else if IsWhitespace(s[0]) {
      var u := TrimStart(s);
      TrimStartKeepsLast(s);
      SplitCount(u, []);
      assert TrimStart(s[1..]) == u;
      TrimStartRuns(s[1..]);
      assert u == [u[0]] + u[1..];
    } else {
      assert s[1..] == [] || s[1..][|s[1..]| - 1] == s[|s| - 1];
      SplitCount(s[1..], cur + [s[0]]);
    }
  }

  /** Under the invariant of the split loop (the piece so far is whitespace
      free, and it is non-empty unless a word starts right here), every piece
      of a text that does not end in whitespace is a non-empty word. */
  lemma {:induction false} SplitPiecesAreWords(s: Text, cur: Text)
    requires NoWhitespace(cur)
    requires s == [] || IsNotWhitespace(s[|s| - 1])
    requires cur != [] || (s != [] && IsNotWhitespace(s[0]))
    ensures forall k :: 0 <= k < |SplitOnWhitespaceFrom(s, cur)| ==>
              SplitOnWhitespaceFrom(s, cur)[k] != [] && NoWhitespace(SplitOnWhitespaceFrom(s, cur)[k])
    decreases |s|
  {
    if s == [] {
    } else if IsWhitespace(s[0]) {
      TrimStartKeepsLast(s);
      SplitPiecesAreWords(TrimStart(s), []);
    } else {
      assert s[1..] == [] || s[1..][|s[1..]| - 1] == s[|s| - 1];
      SplitPiecesAreWords(s[1..], cur + [s[0]]);
    }
  }

  /** Joined in order, the pieces are the piece so far followed by the
      non-whitespace code units: the split loses only whitespace. */
  lemma {:induction false} SplitJoin(s: Text, cur: Text)
    ensures Concat(SplitOnWhitespaceFrom(s, cur)) == cur + Keep(s, IsNotWhitespace)
    decreases |s|
  {
    if s == [] {
      assert Concat([cur]) == cur + Concat([]);
    } else if IsWhitespace(s[0]) {
      SplitJoin(TrimStart(s), []);
      ConcatCons(cur, SplitOnWhitespaceFrom(TrimStart(s), []));
      TrimStartKeeps(s);
    } else {
      SplitJoin(s[1..], cur + [s[0]]);
      assert Keep(s, IsNotWhitespace) == [s[0]] + Keep(s[1..], IsNotWhitespace);
    }
  }

  /** Leading whitespace starts no run. */
  lemma {:induction false} TrimStartRuns(s: Text)
    ensures RunStarts(s, true) == RunStarts(TrimStart(s), true)
    decreases |s|
  {
    if s != [] && IsWhitespace(s[0]) {
      TrimStartRuns(s[1..]);
    }
  }

  /** A whitespace code unit appended at the end starts no run. */
  lemma {:induction false} RunsSnocWhitespace(s: Text, w: CodeUnit, afterSpace: bool)
    requires IsWhitespace(w)
    ensures RunStarts(s + [w], afterSpace) == RunStarts(s, afterSpace)
    decreases |s|
  {
    if s == [] {
      assert [] + [w] == [w];
    } else {
      assert (s + [w])[1..] == s[1..] + [w];
      RunsSnocWhitespace(s[1..], w, IsWhitespace(s[0]));
    }
  }

  /** Trailing whitespace starts no run. */
  lemma {:induction false} TrimEndRuns(s: Text, afterSpace: bool)
    ensures RunStarts(s, afterSpace) == RunStarts(TrimEnd(s), afterSpace)
    decreases |s|
  {
    if s != [] && IsWhitespace(s[|s| - 1]) {
      var init := s[..|s| - 1];
      assert s == init + [s[|s| - 1]];
      RunsSnocWhitespace(init, s[|s| - 1], afterSpace);
      TrimEndRuns(init, afterSpace);
    }
  }

  /** Trimming changes neither the runs nor, therefore, the word count. */
  lemma TrimPreservesRuns(s: Text)
    ensures RunCount(Trim(s)) == RunCount(s)
    ensures Trim(s) != [] ==> RunStarts(Trim(s), false) + 1 == RunCount(s)
  {
    TrimStartRuns(s);
    TrimEndRuns(TrimStart(s), true);
    var t := Trim(s);
    if t != [] {
      assert RunStarts(t, true) == 1 + RunStarts(t[1..], false);
    }
  }

  /** An all-whitespace text has no runs. */
  lemma {:induction false} RunsOfWhitespace(s: Text, afterSpace: bool)
    requires forall i :: 0 <= i < |s| ==> IsWhitespace(s[i])
    ensures RunStarts(s, afterSpace) == 0
    decreases |s|
  {
    if s != [] {
      RunsOfWhitespace(s[1..], true);
    }
  }

  /** Every run starts at its own non-whitespace code unit. */
  lemma {:induction false} RunsBounded(s: Text, afterSpace: bool)
    ensures RunStarts(s, afterSpace) <= |Keep(s, IsNotWhitespace)|
    decreases |s|
  {
    if s != [] {
      RunsBounded(s[1..], IsWhitespace(s[0]));
    }
  }

  /** Leading whitespace holds no non-whitespace code unit. */
  lemma {:induction false} TrimStartKeeps(s: Text)
    ensures Keep(TrimStart(s), IsNotWhitespace) == Keep(s, IsNotWhitespace)
    decreases |s|
  {
    if s != [] && IsWhitespace(s[0]) {
      TrimStartKeeps(s[1..]);
    }
  }

  /** Trailing whitespace holds no non-whitespace code unit. */
  lemma {:induction false} TrimEndKeeps(s: Text)
    ensures Keep(TrimEnd(s), IsNotWhitespace) == Keep(s, IsNotWhitespace)
    decreases |s|
  {
    if s != [] && IsWhitespace(s[|s| - 1]) {
      var init := s[..|s| - 1];
      assert s == init + [s[|s| - 1]];
      KeepAppend(init, [s[|s| - 1]], IsNotWhitespace);
      TrimEndKeeps(init);
    }
  }

  /** Trimming removes only whitespace. */
  lemma TrimKeepsNonWhitespace(s: Text)
    ensures Keep(Trim(s), IsNotWhitespace) == Keep(s, IsNotWhitespace)
  {
    TrimStartKeeps(s);
    TrimEndKeeps(TrimStart(s));
  }
}

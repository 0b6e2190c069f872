/** `updateStats`: the seven counts and the reading-time label the widget
    computes from the whole text on every input, before it writes them to the
    page. */
module TextStats {
  import opened CharClasses
  import opened Counting
  import Words
  import Lines
  import ReadingTime

  datatype Stats = Stats(
    charCount: nat,
    charCountNoSpace: nat,
    wordCount: nat,
    lineCount: nat,
    koreanCount: nat,
    englishCount: nat,
    numberCount: nat,
    readingTime: string)

  /** The statistics of one text. The counts keep the relations the page
      promises: the count without whitespace is the count minus the
      whitespace code units; the Hangul, Latin-letter and digit counts
      together, and the word count, never exceed it; there are no lines and
      no words exactly when the text is empty, respectively blank; and the
      label is "0" exactly when the text is empty. */
  function ComputeStats(text: Text): (st: Stats)
    ensures st.charCount == |text|
    ensures st.charCountNoSpace == st.charCount - |Keep(text, IsWhitespace)|
    ensures st.wordCount == Words.RunCount(text)
    ensures st.lineCount == (if text == [] then 0 else 1 + Lines.LineBreaks(text))
    ensures st.koreanCount == |Keep(text, IsHangulSyllable)|
    ensures st.englishCount == |Keep(text, IsAsciiLetter)|
    ensures st.numberCount == |Keep(text, IsAsciiDigit)|
    ensures st.readingTime == ReadingTime.ReadingTime(|text|)
    ensures st.koreanCount + st.englishCount + st.numberCount <= st.charCountNoSpace <= st.charCount
    ensures st.wordCount <= st.charCountNoSpace
    ensures st.wordCount == 0 <==> forall i :: 0 <= i < |text| ==> IsWhitespace(text[i])
    ensures st.lineCount == 0 <==> text == []
    ensures st.readingTime == ReadingTime.ZeroLabel <==> text == []
  {
    ScriptCountsBounded(text);
    var charCount := |text|;
    Stats(
      charCount,
      |RemoveWhitespace(text)|,
      Words.WordCount(text),
      Lines.LineCount(text),
      MatchCount(text, IsHangulSyllable),
      MatchCount(text, IsAsciiLetter),
      MatchCount(text, IsAsciiDigit),
      ReadingTime.ReadingTime(charCount))
  }

  /** The empty text, which the page shows on load and after the clear
      action, has every count zero and the label "0". */
  lemma EmptyTextStats()
    ensures ComputeStats([]) == Stats(0, 0, 0, 0, 0, 0, 0, ReadingTime.ZeroLabel)
  {
  }

  /** "안녕 세계": 5 code units, 4 without the space, two words, four Hangul
      syllables. */
  lemma HangulGreetingStats()
    ensures var st := ComputeStats([0xC548, 0xB155, 0x20, 0xC138, 0xACC4]);
            st == Stats(5, 4, 2, 1, 4, 0, 0, ReadingTime.AboutPrefix + "1")
  {
    HangulGreetingCounts();
    HangulGreetingWordsAndLines();
  }

  lemma HangulGreetingCounts()
    ensures |Keep([0xC548, 0xB155, 0x20, 0xC138, 0xACC4], IsWhitespace)| == 1
    ensures MatchCount([0xC548, 0xB155, 0x20, 0xC138, 0xACC4], IsHangulSyllable) == 4
  {
  }

  lemma HangulGreetingWordsAndLines()
    ensures Words.RunCount([0xC548, 0xB155, 0x20, 0xC138, 0xACC4]) == 2
    ensures Lines.LineBreaks([0xC548, 0xB155, 0x20, 0xC138, 0xACC4]) == 0
  {
  }

  /** "hello world": 11 code units, 10 without the space, two words, one
      line, ten Latin letters. */
  lemma HelloWorldStats(t: Text)
    requires t == [0x68, 0x65, 0x6C, 0x6C, 0x6F, 0x20, 0x77, 0x6F, 0x72, 0x6C, 0x64]
    ensures var st := ComputeStats(t);
            st.charCount == 11 && st.charCountNoSpace == 10 && st.wordCount == 2 && st.lineCount == 1
            && st.koreanCount == 0 && st.englishCount == 10 && st.numberCount == 0
  {
    HelloWorldSpaces();
    HelloWorldLetters();
    HelloWorldNoHangulNorDigits();
    HelloWorldRuns();
    HelloWorldNoLineBreaks();
  }

  lemma HelloWorldSpaces()
    ensures |Keep([0x68, 0x65, 0x6C, 0x6C, 0x6F, 0x20, 0x77, 0x6F, 0x72, 0x6C, 0x64], IsWhitespace)| == 1
  {
    var hello: Text := [0x68, 0x65, 0x6C, 0x6C, 0x6F];
    var world: Text := [0x77, 0x6F, 0x72, 0x6C, 0x64];
    OneSpaceBetween(hello, world);
    assert hello + [0x20] + world == [0x68, 0x65, 0x6C, 0x6C, 0x6F, 0x20, 0x77, 0x6F, 0x72, 0x6C, 0x64];
  }

  /** Two words without whitespace around one space hold one whitespace
      code unit. */
  lemma OneSpaceBetween(left: Text, right: Text)
    requires Words.NoWhitespace(left) && Words.NoWhitespace(right)
    ensures |Keep(left + [0x20] + right, IsWhitespace)| == 1
  {
    KeepEmpty(left, IsWhitespace);
    KeepEmpty(right, IsWhitespace);
    KeepAppend(left, [0x20], IsWhitespace);
    KeepAppend(left + [0x20], right, IsWhitespace);
  }

  lemma HelloWorldLetters()
    ensures |Keep([0x68, 0x65, 0x6C, 0x6C, 0x6F, 0x20, 0x77, 0x6F, 0x72, 0x6C, 0x64], IsAsciiLetter)| == 10
  {
  }

  lemma HelloWorldNoHangulNorDigits()
    ensures |Keep([0x68, 0x65, 0x6C, 0x6C, 0x6F, 0x20, 0x77, 0x6F, 0x72, 0x6C, 0x64], IsHangulSyllable)| == 0
    ensures |Keep([0x68, 0x65, 0x6C, 0x6C, 0x6F, 0x20, 0x77, 0x6F, 0x72, 0x6C, 0x64], IsAsciiDigit)| == 0
  {
    KeepEmpty([0x68, 0x65, 0x6C, 0x6C, 0x6F, 0x20, 0x77, 0x6F, 0x72, 0x6C, 0x64], IsHangulSyllable);
    KeepEmpty([0x68, 0x65, 0x6C, 0x6C, 0x6F, 0x20, 0x77, 0x6F, 0x72, 0x6C, 0x64], IsAsciiDigit);
  }

  lemma HelloWorldNoLineBreaks()
    ensures Lines.LineBreaks([0x68, 0x65, 0x6C, 0x6C, 0x6F, 0x20, 0x77, 0x6F, 0x72, 0x6C, 0x64]) == 0
  {
    Lines.NoBreakNoLineBreaks([0x68, 0x65, 0x6C, 0x6C, 0x6F, 0x20, 0x77, 0x6F, 0x72, 0x6C, 0x64]);
  }

  lemma HelloWorldRuns()
    ensures Words.RunCount([0x68, 0x65, 0x6C, 0x6C, 0x6F, 0x20, 0x77, 0x6F, 0x72, 0x6C, 0x64]) == 2
  {
  }

  /** "line1\nline2\nline3" has three lines. */
  lemma ThreeLinesStats()
    ensures Lines.LineCount([0x6C, 0x69, 0x6E, 0x65, 0x31, LF, 0x6C, 0x69, 0x6E, 0x65, 0x32, LF,
                             0x6C, 0x69, 0x6E, 0x65, 0x33]) == 3
  {
    var w1: Text := [0x6C, 0x69, 0x6E, 0x65, 0x31];
    var w2: Text := [0x6C, 0x69, 0x6E, 0x65, 0x32];
    var w3: Text := [0x6C, 0x69, 0x6E, 0x65, 0x33];
    ThreeLinesJoined(w1, w2, w3);
    assert w1 + ([LF] + (w2 + ([LF] + w3))) == [0x6C, 0x69, 0x6E, 0x65, 0x31, LF, 0x6C, 0x69, 0x6E, 0x65, 0x32, LF,
                                                0x6C, 0x69, 0x6E, 0x65, 0x33];
  }

  /** Three pieces without CR or LF, joined by two LFs, make three lines. */
  lemma ThreeLinesJoined(w1: Text, w2: Text, w3: Text)
    requires Lines.NoLineBreak(w1) && Lines.NoLineBreak(w2) && Lines.NoLineBreak(w3)
    ensures Lines.LineCount(w1 + ([LF] + (w2 + ([LF] + w3)))) == 3
  {
    Lines.NoBreakNoLineBreaks(w1);
    Lines.NoBreakNoLineBreaks(w2);
    Lines.NoBreakNoLineBreaks(w3);
    assert [LF][1..] == [];
    Lines.LineBreaksAppend([LF], w3);
    Lines.LineBreaksAppend(w2, [LF] + w3);
    Lines.LineBreaksAppend([LF], w2 + ([LF] + w3));
    Lines.LineBreaksAppend(w1, [LF] + (w2 + ([LF] + w3)));
  }

  /** "a    b" has two words: a run of spaces separates, it adds no word. */
  lemma InnerSpacesStats()
    ensures Words.WordCount([0x61, 0x20, 0x20, 0x20, 0x20, 0x62]) == 2
  {
  }

  /** "a\n\rb" has three lines: LF then CR is two separators, unlike CR LF. */
  lemma MixedBreaksStats()
    ensures Lines.LineCount([0x61, LF, CR, 0x62]) == 3
    ensures Lines.LineCount([0x61, CR, LF, 0x62]) == 2
  {
    var b: Text := [0x62];
    assert b[1..] == [];
    assert Lines.LineBreaks(b) == 0;
    var rb: Text := [CR, 0x62];
    assert rb[1..] == b;
    assert Lines.LineBreaks(rb) == 1;
    var nrb: Text := [LF, CR, 0x62];
    assert nrb[1..] == rb;
    assert Lines.LineBreaks(nrb) == 2;
    var anrb: Text := [0x61, LF, CR, 0x62];
    assert anrb[1..] == nrb;
    var nb: Text := [LF, 0x62];
    assert nb[1..] == b;
    assert Lines.LineBreaks(nb) == 1;
    var rnb: Text := [CR, LF, 0x62];
    assert rnb[1..] == nb;
    assert Lines.LineBreaks(rnb) == 1;
    var arnb: Text := [0x61, CR, LF, 0x62];
    assert arnb[1..] == rnb;
  }

  /** 200 code units read in about one minute, 201 in about two. */
  lemma ReadingTimeBoundary()
    ensures ReadingTime.ReadingTime(200) == ReadingTime.AboutPrefix + "1"
    ensures ReadingTime.ReadingTime(201) == ReadingTime.AboutPrefix + "2"
  {
  }
}

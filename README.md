# Text statistics of the character-counting widget

The widget in `assets/js/script.js` recounts the whole contents of a text box
on every input and shows eight figures: the number of characters, the number
without whitespace, words, lines, Hangul syllables, Latin letters, digits and
an estimated reading time ("약 N", about N minutes at 200 characters a
minute). This project models that computation, `updateStats` with its
helpers `calculateWordCount` and `calculateReadingTime`, as pure Dafny
functions, and proves what the figures mean and how they relate.

A text is a sequence of UTF-16 code units (`CharClasses.CodeUnit`, 0 to
0xFFFF), because `text.length` and regular expressions without the `u` flag
count and match code units; a lone surrogate half is an ordinary code unit.
`\s` is the ECMAScript whitespace set (WhiteSpace and LineTerminator), the same
set `trim()` strips.

Modules, one per part of the computation:

- `CharClasses` (`char_classes.dfy`): code units and the classes `\s`,
  `[가-힣]`, `[a-zA-Z]`, `[0-9]`, CR/LF.
- `Counting` (`counting.dfy`): global matches of a class (`match(/…/g)`, with
  its `null` for no match) and `replace(/\s/g, '')`, and the arithmetic of
  their lengths.
- `Words` (`words.dfy`): `trim()`, `split(/\s+/)` and `calculateWordCount`.
  The number of pieces the split of the trimmed text gives is proved equal
  to an independent count of maximal non-whitespace runs (`SplitCount`,
  `TrimPreservesRuns`).
- `Lines` (`lines.dfy`): `split(/\r\n|\r|\n/)` and the line count. The number
  of lines the split gives is proved to be one more than a
  position-by-position count of line endings (`SplitLinesCount`).
- `ReadingTime` (`reading_time.dfy`): `Math.ceil(n / 200)`, the decimal
  numeral of the template literal, and `calculateReadingTime`.
- `TextStats` (`text_stats.dfy`): the `Stats` record and `ComputeStats`, the
  computing part of `updateStats`, with worked examples.

The `'1분 미만'` ("less than one minute") branch of `calculateReadingTime`
cannot be reached: every non-empty text needs at least one minute. The model
keeps that branch as written and proves that it is never taken.

## Model

| member | source | states |
|---|---|---|
| CharClasses.IsWhitespace | assets/js/script.js:39 | `\s`: the code units TAB, LF, VT, FF, CR, SPACE, NO-BREAK SPACE, U+1680, U+2000 to U+200A, U+2028, U+2029, U+202F, U+205F, U+3000 and U+FEFF |
| CharClasses.WhitespaceClass | assets/js/script.js:39 | `\s` is exactly the ECMAScript WhiteSpace production (TAB, VT, FF, ZWNBSP, the Zs category) together with LineTerminator (LF, CR, LS, PS); U+180E and NEL are not in it |
| CharClasses.IsHangulSyllable | assets/js/script.js:48 | `[가-힣]`: the code units U+AC00 to U+D7A3 |
| CharClasses.IsAsciiLetter | assets/js/script.js:51 | `[a-zA-Z]`: the code units U+0041 to U+005A and U+0061 to U+007A |
| CharClasses.IsAsciiDigit | assets/js/script.js:54 | `[0-9]`: the code units U+0030 to U+0039 |
| CharClasses.RangeEnds | assets/js/script.js:48-54 | The bounds are the characters the expressions name: '가' is U+AC00 and '힣' is U+D7A3; '가', '힣', 'A', 'Z', 'a', 'z', '0' and '9' are in their classes, and the code units just outside each range are not |
| CharClasses.ClassesDisjoint | assets/js/script.js:48-54 | The Hangul, Latin-letter and digit classes are pairwise disjoint and hold no whitespace; CR and LF are whitespace |
| Counting.Keep | assets/js/script.js:48-54 | The code units a global class match collects: no more than the text holds, and every one is in the class |
| Counting.RemoveWhitespace | assets/js/script.js:39 | `replace(/\s/g, '')` leaves only non-whitespace code units, and its length is the text length minus the number of whitespace code units |
| Counting.MatchAll | assets/js/script.js:48 | `match` of a global class gives no array (`null`) exactly when no code unit is in the class; otherwise a non-empty array of the matching code units |
| Counting.MatchCount | assets/js/script.js:48-54 | The match length, with `null` read as an empty array, is the number of matching code units, and zero exactly when none matches |
| Counting.KeepPartition | assets/js/script.js:36-39 | A class and its complement split the text: matches of one plus matches of the other is the text length |
| Counting.KeepDisjointUnion | assets/js/script.js:48-54 | Two disjoint classes together match as many code units as their union |
| Counting.KeepMonotone | assets/js/script.js:48-54 | A class contained in another never matches more code units |
| Counting.ScriptCountsBounded | assets/js/script.js:48-54 | Hangul count + Latin-letter count + digit count is at most the count without whitespace |
| Words.TrimStart | assets/js/script.js:79 | Dropping leading whitespace leaves a text that starts with non-whitespace, strictly shorter when the text started with whitespace |
| Words.TrimEnd | assets/js/script.js:79 | Dropping trailing whitespace leaves a text that ends with non-whitespace |
| Words.TrimStartDropsWhitespace | assets/js/script.js:79 | What TrimStart removes is a prefix of the text, all whitespace |
| Words.TrimEndDropsWhitespace | assets/js/script.js:79 | What TrimEnd removes is a suffix of the text, all whitespace |
| Words.TrimIsSlice | assets/js/script.js:74-79 | `trim()` is a slice of the text, and everything before and after that slice is whitespace |
| Words.Trim | assets/js/script.js:74 | `trim()` is empty exactly when the text is all whitespace; otherwise it starts and ends with non-whitespace |
| Words.WordCount | assets/js/script.js:73-81 | The word count is 0 exactly for an empty or all-whitespace text, equals the number of maximal non-whitespace runs, and is at most the count without whitespace |
| Words.SplitOnWhitespaceFrom | assets/js/script.js:79 | `split(/\s+/)` as the ECMAScript split algorithm runs it: at whitespace the greedy `\s+` match takes the whole run and ends the piece, and the end of the text emits the last piece even when empty, so there is always at least one piece (count, pieces and join are stated by SplitCount, SplitPiecesAreWords and SplitJoin) |
| Words.SplitCount | assets/js/script.js:79-80 | Splitting a text that does not end in whitespace gives one piece more than the runs that start after whitespace |
| Words.SplitPiecesAreWords | assets/js/script.js:79-80 | Every piece of the split of a trimmed text is non-empty and whitespace-free |
| Words.SplitJoin | assets/js/script.js:79 | The pieces of the split, joined in order, are the text without its whitespace |
| Words.WordsAreTokens | assets/js/script.js:79-80 | The words of a non-blank text are non-empty, whitespace-free, and joined in order give exactly the text with its whitespace removed |
| Words.TrimPreservesRuns | assets/js/script.js:74-79 | Trimming changes neither the number of non-whitespace runs nor, so, the word count |
| Words.TrimKeepsNonWhitespace | assets/js/script.js:79 | Trimming removes whitespace only |
| Words.RunsBounded | assets/js/script.js:79-80 | Each run of non-whitespace starts at its own non-whitespace code unit, so runs never outnumber them |
| Lines.SeparatorLength | assets/js/script.js:45 | The separator match at the front is 2 exactly for CR LF, 0 exactly when no CR or LF starts there, and 1 otherwise |
| Lines.SplitLinesFrom | assets/js/script.js:45 | The split on CR LF, CR or LF as the ECMAScript split algorithm runs it: at a CR or LF the separator (CR LF whole, otherwise one code unit) ends the line, and the end of the text emits the last line even when empty, so there is always at least one line (count, contents and join are stated by SplitLinesCount, SplitLinesNoBreaks and SplitLinesJoin) |
| Lines.LineCount | assets/js/script.js:45 | The line count is 0 exactly for the empty text and otherwise 1 + the number of line endings (CR LF once, lone CR or LF once, a trailing one included) |
| Lines.SplitLinesCount | assets/js/script.js:45 | Splitting on CR LF, lone CR or lone LF gives one line more than there are line endings |
| Lines.LineBreaksAppend | assets/js/script.js:45 | The line endings of two texts joined add up, unless the join separates a CR from the LF after it |
| Lines.NoBreakNoLineBreaks | assets/js/script.js:45 | A text without CR or LF has no line ending, so a non-empty one is one line |
| Lines.SkipSeparator | assets/js/script.js:45 | Skipping the separator at the front skips exactly one line ending and no code unit a line keeps |
| Lines.SplitLinesNoBreaks | assets/js/script.js:45 | No line of the split holds a CR or an LF |
| Lines.SplitLinesJoin | assets/js/script.js:45 | The lines, joined in order, are the text without its CRs and LFs |
| Lines.LineBreaksBounds | assets/js/script.js:45 | The number of line endings is at least the number of LFs and at most the number of CRs and LFs |
| ReadingTime.Minutes | assets/js/script.js:90 | `Math.ceil(n / 200)`: the fewest whole minutes whose 200 code units each cover the text |
| ReadingTime.DecimalDigits | assets/js/script.js:97 | A number in a template literal is a non-empty string of decimal digits without a leading zero |
| ReadingTime.DecimalRoundTrip | assets/js/script.js:97 | Reading the numeral back gives the number it was written from |
| ReadingTime.ReadingTime | assets/js/script.js:86-99 | The label is `'0'` iff the count is 0, `'약 1'` iff 1 ≤ count ≤ 200, `'약 N'` with N = ⌈count/200⌉ ≥ 2 for longer texts, and never `'1분 미만'` |
| ReadingTime.LabelStatesMinutes | assets/js/script.js:94-97 | Every non-zero label is `'약 '` followed by the numeral of the minutes, which reads back as ⌈count/200⌉ |
| ReadingTime.PositiveLengthNeedsAMinute | assets/js/script.js:90-93 | A non-empty text needs at least one minute, so the `'1분 미만'` branch is unreachable |
| TextStats.ComputeStats | assets/js/script.js:34-57 | The eight figures: the length; the length minus the whitespace code units; the number of maximal non-whitespace runs; 0 for the empty text and otherwise 1 + the line endings; the Hangul, Latin-letter and digit matches; the reading-time label of the length. Hence the script counts sum, and the word count, to at most the count without whitespace; no lines iff empty; no words iff blank; label `'0'` iff empty |
| TextStats.EmptyTextStats | assets/js/script.js:136 | The empty text shown on first load and after clearing has every count 0 and label `'0'` |
| TextStats.HangulGreetingStats | assets/js/script.js:34-57 | "안녕 세계" has 5 code units, 4 without the space, 2 words, 1 line, 4 Hangul syllables |
| TextStats.HelloWorldStats | assets/js/script.js:34-57 | "hello world" has 11 code units, 10 without the space, 2 words, 1 line, no Hangul, 10 Latin letters, no digits |
| TextStats.OneSpaceBetween | assets/js/script.js:39 | Two whitespace-free texts around one space hold exactly one whitespace code unit |
| TextStats.ThreeLinesJoined | assets/js/script.js:45 | Three pieces without CR or LF joined by two LFs make three lines |
| TextStats.ThreeLinesStats | assets/js/script.js:45 | "line1\nline2\nline3" has 3 lines |
| TextStats.InnerSpacesStats | assets/js/script.js:79-80 | "a    b" has 2 words: a run of spaces adds no word |
| TextStats.MixedBreaksStats | assets/js/script.js:45 | "a\n\rb" has 3 lines, "a\r\nb" has 2 |
| TextStats.ReadingTimeBoundary | assets/js/script.js:86-98 | 200 code units read in about 1 minute, 201 in about 2 |

## Left out

- `animateValue` (lines 104-120) and the DOM writes of `updateStats` (lines 59-67): they display the figures, with CSS classes and timers. They compute nothing.
- The jQuery event handlers for input, the clear button, the Ctrl/Cmd+L shortcut, double-click selection and scroll reveal (lines 11-29, 125-153, 174-178). They are event wiring. The clear action (line 21) and the first call on load (line 136) pass the empty text, which `TextStats.EmptyTextStats` covers; the text restored on load (line 168) is an ordinary input to `ComputeStats`.
- The `localStorage` save and restore (lines 159-169): browser storage I/O.
- The injected CSS (lines 185-212): static styling.
- Surrogate pairs and grapheme clusters: every count is over UTF-16 code units, as in the source. A character outside the Basic Multilingual Plane counts as two, just as `text.length` counts it.
- ReadingTime.Minutes: `Math.ceil` over the floating-point quotient `charCount / 200` is modelled as exact integer ceiling division. The two agree for every length below 200·2^45 code units. That is far beyond any string length a JavaScript engine allows.
- Words.SplitOnWhitespaceFrom: the ECMAScript split algorithm stops at 2^32 − 1 pieces when no limit is given. The model has no cap, because a text with that many separators is longer than any string a JavaScript engine allows.
- Lines.SplitLinesFrom: the same 2^32 − 1 piece cap of the split algorithm is not modelled, for the same reason.
- ReadingTime.DecimalDigits: models number-to-string only for the non-negative whole numbers that reach it.
- Repeated calls: every model function is deterministic, so two calls on the same text give equal statistics. No separate lemma states this.
- Code points: nothing is counted per code point. The code counts code units (`text.length`, regular expressions without the `u` flag), and so does this model.

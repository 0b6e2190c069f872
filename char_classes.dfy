/** The character classes the statistics widget tests for. A JavaScript string
    is a sequence of UTF-16 code units, and a regular expression without the
    `u` flag matches one code unit at a time, so every class below is a
    predicate on a single code unit. */
module CharClasses {

  /** One UTF-16 code unit: what `text.length` counts. A lone surrogate half is
      a code unit like any other. */
  newtype CodeUnit = x: int | 0 <= x < 0x1_0000

  /** The contents of the text box. */
  type Text = seq<CodeUnit>

  const LF: CodeUnit := 0x0A
  const CR: CodeUnit := 0x0D

  /** The regular-expression class `\s`: the ECMAScript WhiteSpace code points
      (TAB, VT, FF, SPACE, NO-BREAK SPACE, ZERO WIDTH NO-BREAK SPACE and the
      other Space_Separator code points) together with the LineTerminator
      code points (LF, CR, LINE SEPARATOR, PARAGRAPH SEPARATOR). The same set
      is what `String.prototype.trim` strips. */
  predicate IsWhitespace(c: CodeUnit) {
    || c == 0x09 || c == 0x0A || c == 0x0B || c == 0x0C || c == 0x0D
    || c == 0x20 || c == 0xA0 || c == 0x1680
    || (0x2000 <= c <= 0x200A)
    || c == 0x2028 || c == 0x2029 || c == 0x202F || c == 0x205F
    || c == 0x3000 || c == 0xFEFF
  }

  predicate IsNotWhitespace(c: CodeUnit) {
    !IsWhitespace(c)
  }

  /** `[가-힣]`: the precomposed Hangul syllables U+AC00 to U+D7A3. */
  predicate IsHangulSyllable(c: CodeUnit) {
    0xAC00 <= c <= 0xD7A3
  }

  /** `[a-zA-Z]` */
  predicate IsAsciiLetter(c: CodeUnit) {
    (0x41 <= c <= 0x5A) || (0x61 <= c <= 0x7A)
  }

  /** `[0-9]` */
  predicate IsAsciiDigit(c: CodeUnit) {
    0x30 <= c <= 0x39
  }

  /** A code unit that one of the three script counters counts. */
  predicate IsScriptCounted(c: CodeUnit) {
    IsHangulSyllable(c) || IsAsciiLetter(c) || IsAsciiDigit(c)
  }

  /** A line break as `/\r\n|\r|\n/` sees it: only CR and LF, not U+2028/U+2029. */
  predicate IsLineBreakUnit(c: CodeUnit) {
    c == CR || c == LF
  }

  predicate IsNotLineBreakUnit(c: CodeUnit) {
    !IsLineBreakUnit(c)
  }

  /** The Unicode general category Zs (Space_Separator), as of Unicode 6.3. */
  predicate IsSpaceSeparator(c: CodeUnit) {
    c == 0x20 || c == 0xA0 || c == 0x1680 || (0x2000 <= c <= 0x200A)
    || c == 0x202F || c == 0x205F || c == 0x3000
  }

  /** The ECMAScript WhiteSpace production: TAB, VT, FF, ZWNBSP and Zs. */
  predicate IsWhiteSpaceProduction(c: CodeUnit) {
    c == 0x09 || c == 0x0B || c == 0x0C || c == 0xFEFF || IsSpaceSeparator(c)
  }

  /** The ECMAScript LineTerminator production: LF, CR, LS and PS. */
  predicate IsLineTerminator(c: CodeUnit) {
    c == LF || c == CR || c == 0x2028 || c == 0x2029
  }

  /** `\s` is exactly WhiteSpace together with LineTerminator; U+180E, which
      left Zs in Unicode 6.3, is not in it, and U+0085 (NEL) never was. */
  lemma WhitespaceClass(c: CodeUnit)
    ensures IsWhitespace(c) <==> IsWhiteSpaceProduction(c) || IsLineTerminator(c)
    ensures !IsWhitespace(0x180E) && !IsWhitespace(0x85)
  {
  }

  /** The bounds of the three counted ranges are the characters the
      regular expressions name: '가' and '힣', 'A', 'Z', 'a', 'z', '0' and
      '9' belong to their classes, and the code units just outside do not. */
  lemma RangeEnds()
    ensures ('가' as int) == 0xAC00 && ('힣' as int) == 0xD7A3
    ensures IsHangulSyllable(('가' as int) as CodeUnit) && IsHangulSyllable(('힣' as int) as CodeUnit)
    ensures !IsHangulSyllable((('가' as int) - 1) as CodeUnit) && !IsHangulSyllable((('힣' as int) + 1) as CodeUnit)
    ensures IsAsciiLetter(('A' as int) as CodeUnit) && IsAsciiLetter(('Z' as int) as CodeUnit)
    ensures IsAsciiLetter(('a' as int) as CodeUnit) && IsAsciiLetter(('z' as int) as CodeUnit)
    ensures !IsAsciiLetter((('A' as int) - 1) as CodeUnit) && !IsAsciiLetter((('Z' as int) + 1) as CodeUnit)
    ensures !IsAsciiLetter((('a' as int) - 1) as CodeUnit) && !IsAsciiLetter((('z' as int) + 1) as CodeUnit)
    ensures IsAsciiDigit(('0' as int) as CodeUnit) && IsAsciiDigit(('9' as int) as CodeUnit)
    ensures !IsAsciiDigit((('0' as int) - 1) as CodeUnit) && !IsAsciiDigit((('9' as int) + 1) as CodeUnit)
  {
  }

  /** The three counted classes are pairwise disjoint, and none of them holds a
      whitespace code unit; every line-break unit is whitespace. */
  lemma ClassesDisjoint(c: CodeUnit)
    ensures !(IsHangulSyllable(c) && IsAsciiLetter(c))
    ensures !(IsHangulSyllable(c) && IsAsciiDigit(c))
    ensures !(IsAsciiLetter(c) && IsAsciiDigit(c))
    ensures IsScriptCounted(c) ==> IsNotWhitespace(c)
    ensures IsLineBreakUnit(c) ==> IsWhitespace(c)
  {
  }
}

/** `calculateReadingTime`: the estimated reading time, at 200 code units a
    minute, as the label the page shows. */
module ReadingTime {

  const CharsPerMinute: nat := 200

  /** The label for an empty text. */
  const ZeroLabel: string := "0"
  /** "about": the prefix of every non-zero label. */
  const AboutPrefix: string := "약 "
  /** "less than one minute": the label of a branch no length reaches. */
  const UnderOneMinuteLabel: string := "1분 미만"

  /** `Math.ceil(charCount / 200)`: the fewest whole minutes that cover the
      text. */
  function Minutes(charCount: nat): (m: nat)
    ensures charCount <= m * CharsPerMinute
    ensures m == 0 || (m - 1) * CharsPerMinute < charCount
  {
    (charCount + CharsPerMinute - 1) / CharsPerMinute
  }

  function DigitChar(d: nat): (c: char)
    requires d < 10
    ensures '0' <= c <= '9'
  {
    (('0' as int) + d) as char
  }

  /** A number in a template literal: its shortest decimal numeral. */
  function DecimalDigits(n: nat): (r: string)
    ensures |r| >= 1
    ensures forall i :: 0 <= i < |r| ==> '0' <= r[i] <= '9'
    ensures r[0] == '0' ==> n == 0
    decreases n
  {
    if n < 10 then [DigitChar(n)] else DecimalDigits(n / 10) + [DigitChar(n % 10)]
  }

  /** The value of a numeral. */
  function DecimalValue(s: string): nat
    requires forall i :: 0 <= i < |s| ==> '0' <= s[i] <= '9'
    decreases |s|
  {
    if s == [] then 0
    else 10 * DecimalValue(s[..|s| - 1]) + ((s[|s| - 1] as int) - ('0' as int))
  }

  /** Reading a numeral back gives the number it was made from. */
  lemma {:induction false} DecimalRoundTrip(n: nat)
    ensures DecimalValue(DecimalDigits(n)) == n
    decreases n
  {
    if n >= 10 {
      DecimalRoundTrip(n / 10);
      var r := DecimalDigits(n);
      assert r[..|r| - 1] == DecimalDigits(n / 10);
    }
  }

  /** `calculateReadingTime(charCount)`: "0" exactly for an empty text;
      "about 1" exactly for 1 to 200 code units; above that, "about N" with N
      the minutes, at least 2. The "less than one minute" label is never
      produced. */
  function ReadingTime(charCount: nat): (caption: string)
    ensures caption == ZeroLabel <==> charCount == 0
    ensures caption == AboutPrefix + "1" <==> 1 <= charCount <= CharsPerMinute
    ensures charCount > CharsPerMinute ==>
              Minutes(charCount) >= 2 && caption == AboutPrefix + DecimalDigits(Minutes(charCount))
    ensures caption != UnderOneMinuteLabel
  {
    if charCount == 0 then ZeroLabel
    else
      var minutes := Minutes(charCount);
      if minutes < 1 then UnderOneMinuteLabel
      else if minutes == 1 then AboutPrefix + "1"
      else
        DecimalRoundTrip(minutes);
        assert DecimalValue("1") == 1;
        assert (AboutPrefix + DecimalDigits(minutes))[2..] == DecimalDigits(minutes);
        AboutPrefix + DecimalDigits(minutes)
  }

  /** Every non-zero label is "about" followed by the numeral of the minutes
      (the separate one-minute branch writes the same label), and the numeral
      reads back as the minutes. */
  lemma LabelStatesMinutes(charCount: nat)
    requires charCount > 0
    ensures ReadingTime(charCount) == AboutPrefix + DecimalDigits(Minutes(charCount))
    ensures var numeral := ReadingTime(charCount)[|AboutPrefix|..];
            (forall i :: 0 <= i < |numeral| ==> '0' <= numeral[i] <= '9') &&
            DecimalValue(numeral) == Minutes(charCount)
  {
    var m := Minutes(charCount);
    if m == 1 {
      assert DecimalDigits(1) == "1";
    }
    DecimalRoundTrip(m);
    assert (AboutPrefix + DecimalDigits(m))[|AboutPrefix|..] == DecimalDigits(m);
  }

  /** Every positive length needs at least one minute, which is why the
      "less than one minute" branch cannot be reached. */
  lemma PositiveLengthNeedsAMinute(charCount: nat)
    requires charCount > 0
    ensures Minutes(charCount) >= 1
    ensures ReadingTime(charCount) != UnderOneMinuteLabel
  {
  }
}

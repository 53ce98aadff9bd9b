/**
  The two pieces of Python string behaviour that the alert module relies on:
  `str.upper()` (used to pick the mail channel) and `strftime("%H:%M")`
  (used to decide whether a shift report is due).
 */
module Text {
  import opened Wrappers

  const LongS: char := '\U{017F}'    // LATIN SMALL LETTER LONG S, upper case 'S'
  const DotlessI: char := '\U{0131}' // LATIN SMALL LETTER DOTLESS I, upper case 'I'

  /** Upper case of one character, for every character whose upper case is a
      single ASCII letter; every other character is kept as it is. */
  function UpperChar(c: char): char
  {
    if 'a' <= c <= 'z' then (c as int - 32) as char
    else if c == LongS then 'S'
    else if c == DotlessI then 'I'
    else c
  }

  /** `s.upper()`, character by character. */
  function ToUpper(s: string): (r: string)
    ensures |r| == |s|
    ensures forall i :: 0 <= i < |s| ==> r[i] == UpperChar(s[i])
  {
    if s == [] then [] else [UpperChar(s[0])] + ToUpper(s[1..])
  }

  predicate IsUpperAscii(u: char)
  {
    'A' <= u <= 'Z'
  }

  /** The characters a user may write for the upper-case ASCII letter `u`:
      the letter itself, its lower-case form, and the two non-ASCII letters
      that Python upper-cases to `S` and `I`. */
  predicate SpellsLetter(c: char, u: char)
  {
    c == u
    || (IsUpperAscii(u) && c as int == u as int + 32)
    || (u == 'S' && c == LongS)
    || (u == 'I' && c == DotlessI)
  }

  /** `s` is `word` written in any mixture of cases. */
  predicate SpellsWord(s: string, word: string)
  {
    |s| == |word| && forall i :: 0 <= i < |s| ==> SpellsLetter(s[i], word[i])
  }

  lemma UpperCharSpells(c: char, u: char)
    requires IsUpperAscii(u)
    ensures UpperChar(c) == u <==> SpellsLetter(c, u)
  {
  }

  /** Upper-casing gives an upper-case ASCII word exactly when the input
      spells that word in some mixture of cases. */
  lemma UpperEqualsIff(s: string, word: string)
    requires forall i :: 0 <= i < |word| ==> IsUpperAscii(word[i])
    ensures ToUpper(s) == word <==> SpellsWord(s, word)
  {
    var r := ToUpper(s);
    if |s| == |word| {
      forall i | 0 <= i < |s|
        ensures r[i] == word[i] <==> SpellsLetter(s[i], word[i])
      {
        UpperCharSpells(s[i], word[i]);
      }
      if SpellsWord(s, word) {
        assert forall i :: 0 <= i < |s| ==> r[i] == word[i];
      }
    }
  }

  /** The digit character for `d`. */
  function DigitChar(d: nat): char
    requires d < 10
  {
    ('0' as int + d) as char
  }

  predicate IsDigit(c: char)
  {
    '0' <= c <= '9'
  }

  function DigitValue(c: char): nat
    requires IsDigit(c)
  {
    c as int - '0' as int
  }

  /** `strftime("%H:%M")`: hour and minute, each as two zero-padded digits,
      separated by a colon. */
  function HourMinute(hour: nat, minute: nat): (s: string)
    requires hour < 24 && minute < 60
    ensures |s| == 5 && s[2] == ':'
  {
    [DigitChar(hour / 10), DigitChar(hour % 10), ':', DigitChar(minute / 10), DigitChar(minute % 10)]
  }

  /** Reads a string of the form `HH:MM` back into an hour and a minute of
      a day; anything else (a missing zero, seconds, an hour 24) is `None`. */
  function ParseHourMinute(s: string): Option<(nat, nat)>
  {
    if |s| == 5 && IsDigit(s[0]) && IsDigit(s[1]) && s[2] == ':' && IsDigit(s[3]) && IsDigit(s[4]) then
      var hour := 10 * DigitValue(s[0]) + DigitValue(s[1]);
      var minute := 10 * DigitValue(s[3]) + DigitValue(s[4]);
      if hour < 24 && minute < 60 then Some((hour, minute)) else None
    else
      None
  }

  lemma ParseFormatted(hour: nat, minute: nat)
    requires hour < 24 && minute < 60
    ensures ParseHourMinute(HourMinute(hour, minute)) == Some((hour, minute))
  {
    var s := HourMinute(hour, minute);
    assert DigitValue(s[0]) == hour / 10 && DigitValue(s[1]) == hour % 10;
    assert DigitValue(s[3]) == minute / 10 && DigitValue(s[4]) == minute % 10;
  }

  lemma FormatParsed(s: string)
    requires ParseHourMinute(s).Some?
    ensures var (hour, minute) := ParseHourMinute(s).value;
      hour < 24 && minute < 60 && HourMinute(hour, minute) == s
  {
    var (hour, minute) := ParseHourMinute(s).value;
    var t := HourMinute(hour, minute);
    assert hour / 10 == DigitValue(s[0]) && hour % 10 == DigitValue(s[1]);
    assert minute / 10 == DigitValue(s[3]) && minute % 10 == DigitValue(s[4]);
    assert forall i :: 0 <= i < 5 ==> t[i] == s[i];
  }
}

/** The character classifier of the title wrapper (`_get_char_type` and the
    `_is_*` helpers of src/core/image_generator.py). */
module CharClass {

  /** The six classes `_get_char_type` returns as strings. */
  datatype CharType = Kanji | Hiragana | Katakana | Alpha | Digit | Other

  /** CJK Unified Ideographs and their Extension A. */
  predicate IsKanji(c: char) {
    (0x4E00 <= c as int <= 0x9FFF) || (0x3400 <= c as int <= 0x4DBF)
  }

  predicate IsHiragana(c: char) {
    0x3040 <= c as int <= 0x309F
  }

  predicate IsKatakana(c: char) {
    0x30A0 <= c as int <= 0x30FF
  }

  /** `c.isascii() and c.isalpha()`: exactly the ASCII letters. */
  predicate IsAsciiAlpha(c: char) {
    ('A' <= c <= 'Z') || ('a' <= c <= 'z')
  }

  /** `c.isdigit()` for the digits a Japanese title uses: the ASCII and
      fullwidth decimal digits, the superscripts '¹', '²', '³' and the
      circled digits '①' to '⑨'. */
  predicate IsDigit(c: char) {
    ('0' <= c <= '9') || ('０' <= c <= '９') ||
    c == '¹' || c == '²' || c == '³' || ('①' <= c <= '⑨')
  }

  /** The classes are tested in the source's order; because the ranges are
      pairwise disjoint, each class is exactly the set its test names, and
      every character falls in exactly one class. */
  function GetCharType(c: char): (t: CharType)
    ensures t == Kanji <==> IsKanji(c)
    ensures t == Hiragana <==> IsHiragana(c)
    ensures t == Katakana <==> IsKatakana(c)
    ensures t == Alpha <==> IsAsciiAlpha(c)
    ensures t == Digit <==> IsDigit(c)
    ensures t == Other <==> !IsKanji(c) && !IsHiragana(c) && !IsKatakana(c) && !IsAsciiAlpha(c) && !IsDigit(c)
  {
    if IsKanji(c) then Kanji
    else if IsHiragana(c) then Hiragana
    else if IsKatakana(c) then Katakana
    else if IsAsciiAlpha(c) then Alpha
    else if IsDigit(c) then Digit
    else Other
  }

  /** Circled and superscript digits count as digits, as `isdigit` says;
      the circled ten and a kanji numeral do not. */
  lemma DigitExamples()
    ensures GetCharType('7') == Digit && GetCharType('７') == Digit
    ensures GetCharType('①') == Digit && GetCharType('²') == Digit
    ensures GetCharType('⑩') == Other && GetCharType('三') == Kanji
  {
  }
}

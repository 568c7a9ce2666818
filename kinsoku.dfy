/** The two line-break prohibition tables of the title wrapper
    (`LINE_START_PROHIBITED`, `LINE_END_PROHIBITED`), as membership tests. */
module Kinsoku {
  import opened CharClass

  /** Characters that must not start a line: particles that attach to the
      preceding word, small hiragana, small katakana, then closing
      punctuation and brackets, the middle dot, the long-vowel mark and the
      wave dash. (The fullwidth closing parenthesis is listed twice in the
      source; a set keeps it once.) */
  predicate LineStartProhibited(c: char) {
    c in {
      'が', 'を', 'は', 'に', 'で', 'と', 'も', 'へ', 'や', 'の', 'か', 'な', 'よ', 'ね', 'わ',
      'ぁ', 'ぃ', 'ぅ', 'ぇ', 'ぉ', 'っ', 'ゃ', 'ゅ', 'ょ', 'ゎ',
      'ァ', 'ィ', 'ゥ', 'ェ', 'ォ', 'ッ', 'ャ', 'ュ', 'ョ', 'ヮ', 'ヵ', 'ヶ',
      '。', '、', '．', '，', '！', '？', '）', '」', '』', '】', '〉', '》', ']', '｝',
      '・', '：', '；', 'ー', '～'
    }
  }

  /** Characters that must not end a line: opening brackets. */
  predicate LineEndProhibited(c: char) {
    c in {'（', '「', '『', '【', '〈', '《', '(', '[', '｛'}
  }

  /** No character is barred from both ends of a line, and no kanji, ASCII
      letter or digit is barred from either, so a break between two such
      characters is never filtered out. ASCII brackets do occur in the
      tables. */
  lemma TablesShape(c: char)
    ensures !(LineStartProhibited(c) && LineEndProhibited(c))
    ensures LineStartProhibited(c) || LineEndProhibited(c) ==>
              GetCharType(c) in {Hiragana, Katakana, Other}
    ensures LineStartProhibited(']') && LineEndProhibited('(') && LineEndProhibited('[')
  {
  }
}

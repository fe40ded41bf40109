/** Sets of characters, written as texts. */
module CharacterSets {
  import opened Chars

  const BLANKS := " \t"
  const BREAKS := "\r\n\U{85}\U{2028}\U{2029}"

  predicate Among(c: char, chars: string) { exists i :: 0 <= i < |chars| && chars[i] == c }

  /** A character that stands for itself, whatever is around it. */
  predicate IsText(c: char) { c != '\0' && !Among(c, BLANKS) && !Among(c, BREAKS) }

  predicate StartsWith(s: string, x: string) { |x| <= |s| && s[..|x|] == x }

  /** The scanner's and the emitter's tests are for these sets. */
  lemma BlanksAgree(c: char)
    ensures IsBlank(c) <==> Among(c, BLANKS)
    ensures IsBreak(c) <==> Among(c, BREAKS)
    ensures IsBlankz(c) <==> !IsText(c)
  {
    if c == ' ' { assert BLANKS[0] == c; } else if c == '\t' { assert BLANKS[1] == c; }
    if c == '\r' { assert BREAKS[0] == c; } else if c == '\n' { assert BREAKS[1] == c; } else if c == '\U{85}' { assert BREAKS[2] == c; }
    else if c == '\U{2028}' { assert BREAKS[3] == c; } else if c == '\U{2029}' { assert BREAKS[4] == c; }
  }
}

/**
 * Symbol classes used by the spec-language scanners.
 *
 * The source of the class that defines them is not available, so they are
 * defined minimally here: whitespace delimiters and the digits 0-9. The
 * scanners only rely on the facts proved in ClassesDisjoint below.
 */
module Expectations {

  /** Symbols skipped by the cursor's first-non-whitespace peek. */
  predicate IsWhitespace(c: char) {
    c == ' ' || c == '\t' || c == '\n' || c == '\r'
  }

  /** Symbols that end a token. */
  predicate IsDelimiter(c: char) {
    IsWhitespace(c)
  }

  /** Symbols that make up numbers (no sign, no locale-specific digits). */
  predicate IsNumeric(c: char) {
    '0' <= c <= '9'
  }

  /** The facts about the symbol classes that the parser depends on. */
  lemma ClassesDisjoint(c: char)
    ensures !(IsDelimiter(c) && IsNumeric(c))
    ensures IsWhitespace(c) ==> IsDelimiter(c)
    ensures c in ".%~<>" ==> !IsDelimiter(c) && !IsNumeric(c)
  {
  }
}

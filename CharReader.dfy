/** The character cursor that the spec-language expectations read from. */
module CharReader {
  import opened Wrappers
  import opened Expectations

  /**
   * The first non-whitespace symbol at or after position i, or None when only
   * whitespace is left. Nothing is consumed.
   */
  function FirstNonWhitespace(s: string, i: nat): (r: Option<char>)
    requires i <= |s|
    ensures r.None? <==> forall k :: i <= k < |s| ==> IsWhitespace(s[k])
    ensures r.Some? ==> exists j :: i <= j < |s| && s[j] == r.value && !IsWhitespace(s[j]) &&
                                     forall k :: i <= k < j ==> IsWhitespace(s[k])
    decreases |s| - i
  {
    if i == |s| then None
    else if IsWhitespace(s[i]) then FirstNonWhitespace(s, i + 1)
    else Some(s[i])
  }

  /** A string with a read position; the parser advances it and pushes back one symbol at a time. */
  class StringCharReader {
    const text: string
    var cursor: nat

    ghost predicate Valid()
      reads this
    {
      cursor <= |text|
    }

    constructor (text: string)
      ensures this.text == text && cursor == 0 && Valid()
    {
      this.text := text;
      cursor := 0;
    }

    predicate HasMore()
      reads this
    {
      cursor < |text|
    }

    /** Consumes and returns the symbol under the cursor. */
    method Next() returns (symbol: char)
      requires Valid() && HasMore()
      modifies this
      ensures Valid()
      ensures cursor == old(cursor) + 1 && symbol == text[old(cursor)]
    {
      symbol := text[cursor];
      cursor := cursor + 1;
    }

    /** Un-consumes the symbol returned by the last Next. */
    method Back()
      requires Valid() && 0 < cursor
      modifies this
      ensures Valid()
      ensures cursor == old(cursor) - 1
    {
      cursor := cursor - 1;
    }

    function FirstNonWhiteSpaceSymbol(): Option<char>
      reads this
      requires Valid()
    {
      FirstNonWhitespace(text, cursor)
    }
  }
}

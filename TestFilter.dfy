/**
 * The test-name filter: every `*` of the filter text becomes `.*`, and a
 * test runs when its whole name matches. Only filters whose other symbols
 * stand for themselves are modelled.
 */
module TestFilter {
  import opened Wrappers

  /** One element of a compiled filter: a symbol that must match itself, or `.*`. */
  datatype Token = Literal(c: char) | AnyRun

  type Pattern = seq<Token>

  /** The symbols `.` does not match by default. */
  predicate IsLineTerminator(c: char) {
    c == '\n' || c == '\r' || c == '\U{0085}' || c == '\U{2028}' || c == '\U{2029}'
  }

  predicate NoLineTerminator(s: string) {
    forall k :: 0 <= k < |s| ==> !IsLineTerminator(s[k])
  }

  /** The symbols a regular expression does not take literally. */
  predicate IsRegexMeta(c: char) {
    c in ".^$|?+*()[]{}\\"
  }

  /** A filter whose symbols other than `*` all stand for themselves in a regular expression. */
  predicate PlainFilter(filter: string) {
    forall k :: 0 <= k < |filter| ==> filter[k] == '*' || !IsRegexMeta(filter[k])
  }

  /** The filter text with each `*` read as `.*` and every other symbol read as itself. */
  function Compile(filter: string): (p: Pattern)
    ensures |p| == |filter|
    ensures forall k :: 0 <= k < |filter| ==> p[k] == (if filter[k] == '*' then AnyRun else Literal(filter[k]))
  {
    if filter == [] then []
    else (if filter[0] == '*' then [AnyRun] else [Literal(filter[0])]) + Compile(filter[1..])
  }

  /** The whole of `name` matches the pattern. */
  predicate Matches(p: Pattern, name: string)
    decreases |p|, |name|
  {
    if p == [] then name == []
    else match p[0]
      case Literal(c) => name != [] && name[0] == c && Matches(p[1..], name[1..])
      case AnyRun => Matches(p[1..], name) || (name != [] && !IsLineTerminator(name[0]) && Matches(p, name[1..]))
  }

  /** No filter gives no pattern; a filter gives its text with each `*` read as `.*`. */
  function CreateTestFilter(filter: Option<string>): (p: Option<Pattern>)
    ensures p.None? <==> filter.None?
    ensures p.Some? ==> |p.value| == |filter.value|
    ensures p.Some? ==> forall k :: 0 <= k < |filter.value| ==>
              p.value[k] == (if filter.value[k] == '*' then AnyRun else Literal(filter.value[k]))
  {
    match filter
    case None => None
    case Some(f) => Some(Compile(f))
  }

  /** Without a filter every test runs; with one, the whole name must match it. */
  function MatchesPattern(name: string, pattern: Option<Pattern>): (b: bool)
    ensures pattern.None? ==> b
    ensures pattern == Some([]) ==> (b <==> name == [])
  {
    pattern.None? || Matches(pattern.value, name)
  }

  /** A filter without `*` or any other regular expression operator selects exactly the test of that name. */
  lemma {:induction false} LiteralFilter(filter: string, name: string)
    requires '*' !in filter && PlainFilter(filter)
    ensures MatchesPattern(name, CreateTestFilter(Some(filter))) <==> name == filter
  {
    if filter != [] {
      assert '*' !in filter[1..] by {
        assert forall c :: c in filter[1..] ==> c in filter;
      }
      assert PlainFilter(filter[1..]) by {
        assert forall k :: 0 <= k < |filter[1..]| ==> filter[1..][k] == filter[k + 1];
      }
      if name != [] {
        LiteralFilter(filter[1..], name[1..]);
        if name[0] == filter[0] && name[1..] == filter[1..] {
          assert name == [name[0]] + name[1..] && filter == [filter[0]] + filter[1..];
        }
      }
    }
  }

  /** `*` alone matches every name on one line. */
  lemma {:induction false} StarMatchesLine(p: Pattern, name: string)
    requires p == [AnyRun]
    ensures Matches(p, name) <==> NoLineTerminator(name)
    decreases |name|
  {
    assert p[1..] == [];
    if name != [] {
      StarMatchesLine(p, name[1..]);
      assert NoLineTerminator(name) <==> !IsLineTerminator(name[0]) && NoLineTerminator(name[1..]) by {
        assert forall k :: 0 < k < |name| ==> name[k] == name[1..][k - 1];
      }
    }
  }

  /**
   * A filter `prefix*`, where the prefix has no `*` and no other regular
   * expression operator, selects the names that start with the prefix and
   * go on without a line break.
   */
  lemma {:induction false} TrailingStar(prefix: string, name: string)
    requires '*' !in prefix && PlainFilter(prefix)
    ensures MatchesPattern(name, CreateTestFilter(Some(prefix + "*"))) <==>
              && |prefix| <= |name|
              && name[..|prefix|] == prefix
              && NoLineTerminator(name[|prefix|..])
  {
    var p := Compile(prefix + "*");
    if prefix == [] {
      assert prefix + "*" == "*";
      assert Compile("*") == [AnyRun] by { assert "*"[1..] == []; }
      StarMatchesLine(p, name);
      assert name[0..] == name;
    } else {
      assert (prefix + "*")[1..] == prefix[1..] + "*";
      assert '*' !in prefix[1..] by {
        assert forall c :: c in prefix[1..] ==> c in prefix;
      }
      assert PlainFilter(prefix[1..]) by {
        assert forall k :: 0 <= k < |prefix[1..]| ==> prefix[1..][k] == prefix[k + 1];
      }
      assert p == [Literal(prefix[0])] + Compile(prefix[1..] + "*");
      assert p[1..] == Compile(prefix[1..] + "*");
      if name != [] {
        TrailingStar(prefix[1..], name[1..]);
        if |prefix| <= |name| {
          assert name[..|prefix|] == [name[0]] + name[1..][..|prefix| - 1];
          assert prefix == [prefix[0]] + prefix[1..];
          assert name[|prefix|..] == name[1..][|prefix| - 1..];
        }
      }
    }
  }

  /** `Login*` keeps "Login flow" and drops "Checkout flow". */
  lemma LoginFilter(prefix: string, kept: string, dropped: string)
    requires prefix == "Login" && kept == "Login flow" && dropped == "Checkout flow"
    ensures MatchesPattern(kept, CreateTestFilter(Some(prefix + "*")))
    ensures !MatchesPattern(dropped, CreateTestFilter(Some(prefix + "*")))
  {
    assert '*' !in prefix && PlainFilter(prefix);
    TrailingStar(prefix, kept);
    TrailingStar(prefix, dropped);
    assert kept[..5] == prefix;
    assert kept[5..] == " flow";
    assert dropped[..5][0] == 'C';
  }
}

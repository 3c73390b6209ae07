// Turns an underscore_separated name into camelCase, remembering every
// answer it has given. This is the branch used without PCRE Unicode and
// mbstring support: single bytes, ASCII case mapping.

module UnderscoreToCamelCaseFilter {
  import opened PhpValue

  /** PCRE's `\s` without the `u` flag: space, \t, \n, \v, \f and \r. */
  predicate IsSpace(c: char)
  {
    c == ' ' || c == '\t' || c == '\n' || c == 11 as char || c == 12 as char || c == '\r'
  }

  /**
   * `preg_replace_callback('#(_)([\S]{1})#', strtoupper($m[2]), s)`: scanning
   * left to right, each '_' followed by a non-space character becomes that
   * character upper-cased; the scan resumes after the pair.
   */
  function Replace(s: string): (r: string)
    ensures |r| <= |s|
  {
    if |s| >= 2 && s[0] == '_' && !IsSpace(s[1]) then [UpperChar(s[1])] + Replace(s[2..])
    else if s == [] then []
    else [s[0]] + Replace(s[1..])
  }

  /** `lcfirst`. */
  function LcFirst(s: string): (r: string)
    ensures |r| == |s|
    ensures |s| > 0 ==> r[0] == LowerChar(s[0]) && r[1..] == s[1..]
  {
    if s == [] then [] else [LowerChar(s[0])] + s[1..]
  }

  /** What `filter` returns for `value` when it has not seen `value` before. */
  function CamelCase(value: string): (r: string)
    ensures |r| <= |value|
  {
    LcFirst(Replace(value))
  }

  predicate NoUnderscore(s: string)
  {
    forall i :: 0 <= i < |s| ==> s[i] != '_'
  }

  /** Text without an underscore passes through unchanged. */
  lemma {:induction false} ReplaceKeepsPlainText(s: string)
    requires NoUnderscore(s)
    ensures Replace(s) == s
  {
    if s != [] {
      ReplaceKeepsPlainText(s[1..]);
    }
  }

  /** Replacement treats a stretch without underscores as plain text. */
  lemma {:induction false} ReplaceAfterPlainText(a: string, t: string)
    requires NoUnderscore(a)
    ensures Replace(a + t) == a + Replace(t)
  {
    if a != [] {
      assert (a + t)[0] == a[0];
      assert (a + t)[1..] == a[1..] + t;
      ReplaceAfterPlainText(a[1..], t);
      calc {
        Replace(a + t);
        [a[0]] + Replace(a[1..] + t);
        [a[0]] + (a[1..] + Replace(t));
        { assert [a[0]] + a[1..] == a; }
        a + Replace(t);
      }
    } else {
      assert a + t == t;
    }
  }

  /** The first underscore before a non-space character is dropped and that character upper-cased. */
  lemma UnderscoreBeforeCharacter(a: string, c: char, b: string)
    requires NoUnderscore(a) && !IsSpace(c)
    ensures Replace(a + ['_', c] + b) == a + [UpperChar(c)] + Replace(b)
  {
    ReplaceAfterPlainText(a, ['_', c] + b);
    assert a + ['_', c] + b == a + (['_', c] + b);
    assert (['_', c] + b)[2..] == b;
  }

  /** An underscore before whitespace is kept, and so is the whitespace. */
  lemma UnderscoreBeforeSpace(a: string, c: char, b: string)
    requires NoUnderscore(a) && IsSpace(c)
    ensures Replace(a + ['_', c] + b) == a + ['_', c] + Replace(b)
  {
    ReplaceAfterPlainText(a, ['_', c] + b);
    assert a + ['_', c] + b == a + (['_', c] + b);
    var t := ['_', c] + b;
    assert t[1..] == [c] + b;
    assert ([c] + b)[1..] == b;
  }

  /** An underscore at the very end is kept. */
  lemma TrailingUnderscore(a: string)
    requires NoUnderscore(a)
    ensures Replace(a + "_") == a + "_"
  {
    ReplaceAfterPlainText(a, "_");
  }

  /**
   * The result of a non-empty input never starts with an upper-case letter,
   * and when the input does not start with '_' its first character is the
   * input's, lower-cased.
   */
  lemma CamelCaseStartsLower(value: string)
    requires |value| > 0
    ensures |CamelCase(value)| > 0 && !('A' <= CamelCase(value)[0] <= 'Z')
    ensures value[0] != '_' ==> CamelCase(value)[0] == LowerChar(value[0])
  {
    assert |Replace(value)| > 0;
    if value[0] != '_' {
      assert Replace(value)[0] == value[0];
    }
  }

  /** Every cached entry is the camel-case form of its key. */
  ghost predicate CacheCoherent(cache: map<string, string>)
  {
    forall k :: k in cache ==> cache[k] == CamelCase(k)
  }

  class UnderscoreToCamelCaseFilter {
    /** `$transformedFilters`: earlier inputs and the answers given for them. */
    var transformed: map<string, string>

    ghost predicate Valid()
      reads this
    {
      CacheCoherent(transformed)
    }

    constructor()
      ensures Valid() && transformed == map[]
    {
      transformed := map[];
    }

    /**
     * `filter`: a remembered answer when there is one; otherwise the
     * camel-case form, which is then remembered.
     */
    method Filter(value: string) returns (r: string)
      requires Valid()
      modifies this
      ensures Valid()
      ensures r == CamelCase(value)
      ensures value in old(transformed) ==> transformed == old(transformed)
      ensures value !in old(transformed) ==> transformed == old(transformed)[value := r]
      ensures transformed.Keys == old(transformed).Keys + {value}
    {
      if value in transformed {
        return transformed[value];
      }
      var filtered := Replace(value);
      r := LcFirst(filtered);
      transformed := transformed[value := r];
    }
  }
}

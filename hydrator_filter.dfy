// Hydrator property filters: decide from a method name, optionally written
// "Class::method", whether the hydrator uses that method.

module HydratorFilter {
  import opened Wrappers
  import opened PhpValue

  /**
   * Where the method name starts: just after the first "::", or at 0 when
   * the property holds none.
   */
  function NameStart(property: string): (r: nat)
    ensures r <= |property|
    ensures r == 0 <==> forall j :: 0 <= j <= |property| ==> !MatchAt(property, "::", j)
    ensures r > 0 ==> r >= 2 && MatchAt(property, "::", r - 2)
    ensures r > 0 ==> forall j :: 0 <= j < r - 2 ==> !MatchAt(property, "::", j)
  {
    match IndexOfFrom(property, "::", 0)
    case None => 0
    case Some(i) => i + 2
  }

  /** The method name the filters compare: the text after the first "::". */
  function MethodName(property: string): string
  {
    property[NameStart(property)..]
  }

  /** With no ':' before it, the first "::" is the one after the class name. */
  lemma QualifiedNameStart(cls: string, name: string)
    requires forall i :: 0 <= i < |cls| ==> cls[i] != ':'
    ensures NameStart(cls + "::" + name) == |cls| + 2
    ensures MethodName(cls + "::" + name) == name
  {
    var p := cls + "::" + name;
    assert MatchAt(p, "::", |cls|) by {
      assert p[|cls|..|cls| + 2] == "::";
    }
    forall j | 0 <= j < |cls|
      ensures !MatchAt(p, "::", j)
    {
      assert p[j] == cls[j];
    }
    assert p[|cls| + 2..] == name;
  }

  /** A name without "::" is compared whole. */
  lemma PlainName(name: string)
    requires forall j :: 0 <= j <= |name| ==> !MatchAt(name, "::", j)
    ensures MethodName(name) == name
  {
  }

  // ---------------------------------------------------------------------------
  // MethodMatchFilter
  // ---------------------------------------------------------------------------

  /** Includes or excludes exactly the method `target`; `exclude` defaults to true. */
  datatype MethodMatchFilter = MethodMatchFilter(target: string, exclude: bool)
  {
    /** `filter`: whether the hydrator uses `property`. */
    function Filter(property: string): (r: bool)
      ensures r != exclude <==> MethodName(property) == target
    {
      if MethodName(property) == target then !exclude else exclude
    }
  }

  /** The filter as built with the default `exclude`. */
  function Excluding(target: string): (r: MethodMatchFilter)
    ensures r.target == target && r.exclude
  {
    MethodMatchFilter(target, true)
  }

  /** By default the filter rejects the named method and accepts every other. */
  lemma ExcludingRejectsOnlyTheMethod(target: string, property: string)
    ensures !Excluding(target).Filter(property) <==> MethodName(property) == target
  {
  }

  /**
   * A class prefix does not change the answer: "Class::m" is judged as "m",
   * and only the first "::" is removed, so "A::B::m" is judged as "B::m".
   */
  lemma MethodMatchIgnoresClass(f: MethodMatchFilter, cls: string, name: string)
    requires forall i :: 0 <= i < |cls| ==> cls[i] != ':'
    ensures f.Filter(cls + "::" + name) == (if name == f.target then !f.exclude else f.exclude)
    ensures (forall j :: 0 <= j <= |name| ==> !MatchAt(name, "::", j)) ==>
      f.Filter(cls + "::" + name) == f.Filter(name)
  {
    QualifiedNameStart(cls, name);
  }

  // ---------------------------------------------------------------------------
  // IsFilter
  // ---------------------------------------------------------------------------

  /**
   * `IsFilter::filter`: "is" is found first exactly where the method name
   * starts, that is, the name begins with "is" (case-sensitively).
   */
  function IsFilter(property: string): (r: bool)
    ensures r <==> MatchAt(property, "is", NameStart(property))
  {
    var pos := NameStart(property);
    IndexOfFrom(property, "is", pos) == Some(pos)
  }

  /** Judged on the name after the class prefix, which must begin with "is". */
  lemma IsFilterIgnoresClass(cls: string, name: string)
    requires forall i :: 0 <= i < |cls| ==> cls[i] != ':'
    ensures IsFilter(cls + "::" + name) <==> |name| >= 2 && name[..2] == "is"
  {
    QualifiedNameStart(cls, name);
    var p := cls + "::" + name;
    var s := |cls| + 2;
    if |name| >= 2 {
      assert p[s..s + 2] == name[..2];
    }
  }

  /**
   * Only a lower-case "is" at the very start of the name passes: a name
   * starting with anything but 'i' (such as "IsX" or "hasIs") is rejected.
   */
  lemma IsFilterNeedsLeadingLowerI(property: string)
    requires NameStart(property) < |property| && property[NameStart(property)] != 'i'
    ensures !IsFilter(property)
  {
    NoMatchAfterOtherChar(property, NameStart(property));
  }

  /** "is" cannot occur where a character other than 'i' stands. */
  lemma NoMatchAfterOtherChar(s: string, pos: nat)
    requires pos < |s| && s[pos] != 'i'
    ensures !MatchAt(s, "is", pos)
  {
    if pos + 2 <= |s| {
      assert s[pos..pos + 2][0] == s[pos];
    }
  }
}

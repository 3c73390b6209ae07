// The two-way lookup table shared by the SDK's mappers: a PHP array from
// source names to target names, read forwards by key and backwards by a
// strict search over the values.

module AbstractMapper {
  import opened Wrappers
  import opened PhpValue

  /** The name PHP's type errors give the type of a value. */
  function TypeName(v: Value): string
  {
    match v
    case Null => "null"
    case Bool(_) => "bool"
    case Int(_) => "int"
    case Str(_) => "string"
    case Arr(_) => "array"
  }

  /** PHP's message when a `: string` function returns a value of another type. */
  function ReturnTypeError(given: string): string
  {
    "Return value must be of type string, " + given + " returned"
  }

  /** PHP's message when a `: string` function returns an integer key. */
  const KeyTypeError := ReturnTypeError("int")

  /** The largest and smallest 64-bit PHP integer. */
  const IntMax := 0x7fff_ffff_ffff_ffff
  const IntMin := -0x8000_0000_0000_0000

  /**
   * The key `$mapping[$s]` uses: a string in canonical decimal form within the
   * 64-bit range is stored as that integer, every other string as itself.
   */
  function ArrayKey(s: string): (r: Key)
    ensures r.IntKey? ==> IntToString(r.n) == s && IntMin <= r.n <= IntMax
    ensures r.StrKey? ==> r.s == s
  {
    var n := StringToInt(s);
    if IntToString(n) == s && IntMin <= n <= IntMax then IntKey(n) else StrKey(s)
  }

  /** A key PHP's `?:` treats as false: the integer 0 or the empty string. */
  predicate IsFalsyKey(k: Key)
  {
    k == IntKey(0) || k == StrKey("") || k == StrKey("0")
  }

  /** `array_search($t, $es, true)`: the position of the first entry strictly equal to `t`. */
  function SearchStrict(es: seq<(Key, Value)>, t: string): (r: Option<nat>)
    ensures r.Some? ==> r.value < |es| && es[r.value].1 == Str(t)
    ensures r.Some? ==> forall j :: 0 <= j < r.value ==> es[j].1 != Str(t)
    ensures r.None? ==> forall j :: 0 <= j < |es| ==> es[j].1 != Str(t)
  {
    if es == [] then None
    else if es[0].1 == Str(t) then Some(0)
    else match SearchStrict(es[1..], t)
      case None => None
      case Some(i) => Some(i + 1)
  }

  /** A mapper holds the array it was constructed with and never changes it. */
  datatype Mapper = Mapper(mapping: seq<(Key, Value)>)
  {
    /** `getMapping`: the constructor's array, entries and order unchanged. */
    function GetMapping(): (r: seq<(Key, Value)>)
      ensures r == mapping
    {
      mapping
    }

    /**
     * `getSource($target)`: the key of the first entry whose value is the
     * string `target`; no such entry, or a falsy key, gives "". An integer
     * key breaks the declared string return type.
     */
    function GetSource(target: string): (r: Result<string, string>)
      ensures r.Failure? <==>
        (SearchStrict(mapping, target).Some? && mapping[SearchStrict(mapping, target).value].0.IntKey?
         && mapping[SearchStrict(mapping, target).value].0 != IntKey(0))
      ensures r.Failure? ==> r.error == KeyTypeError
      ensures r.Success? && r.value != "" ==>
        exists i :: 0 <= i < |mapping| && mapping[i] == (StrKey(r.value), Str(target))
      ensures SearchStrict(mapping, target).None? ==> r == Success("")
    {
      match SearchStrict(mapping, target)
      case None => Success("")
      case Some(i) =>
        var k := mapping[i].0;
        if IsFalsyKey(k) then Success("")
        else if k.IntKey? then Failure(KeyTypeError)
        else Success(k.s)
    }

    /**
     * `getTarget($source)`: the entry stored under `source`'s array key;
     * a missing key or a null entry gives "", and an entry that is not a
     * string breaks the declared return type.
     */
    function GetTarget(source: string): (r: Result<string, string>)
      ensures Find(mapping, ArrayKey(source)).None? ==> r == Success("")
      ensures Find(mapping, ArrayKey(source)) == Some(Null) ==> r == Success("")
      ensures forall t :: Find(mapping, ArrayKey(source)) == Some(Str(t)) ==> r == Success(t)
      ensures r.Success? && r.value != "" ==> Find(mapping, ArrayKey(source)) == Some(Str(r.value))
      ensures r.Failure? <==>
        (Find(mapping, ArrayKey(source)).Some? && !Find(mapping, ArrayKey(source)).value.Null?
         && !Find(mapping, ArrayKey(source)).value.Str?)
      ensures r.Failure? ==> r.error == ReturnTypeError(TypeName(Find(mapping, ArrayKey(source)).value))
    {
      match Find(mapping, ArrayKey(source))
      case None => Success("")
      case Some(v) =>
        if v.Null? then Success("")
        else if v.Str? then Success(v.s)
        else Failure(ReturnTypeError(TypeName(v)))
    }
  }

  /** Values no two entries share: the mapping is one-to-one. */
  predicate InjectiveValues(es: seq<(Key, Value)>)
  {
    forall i, j :: 0 <= i < |es| && 0 <= j < |es| && es[i].1 == es[j].1 ==> i == j
  }

  /** The entry `Find` returns sits at some position of the array. */
  lemma {:induction false} FoundAt(es: seq<(Key, Value)>, k: Key)
    requires Find(es, k).Some?
    ensures exists i :: 0 <= i < |es| && es[i] == (k, Find(es, k).value)
  {
    if es[0].0 != k {
      FoundAt(es[1..], k);
      var i :| 0 <= i < |es[1..]| && es[1..][i] == (k, Find(es, k).value);
      assert es[i + 1] == es[1..][i];
    }
  }

  /**
   * Reading a name forwards and then backwards gives the name back, for a
   * one-to-one mapping and a key that is a non-falsy, non-numeric string.
   */
  lemma SourceOfTarget(m: Mapper, s: string)
    requires InjectiveValues(m.mapping)
    requires ArrayKey(s) == StrKey(s) && !IsFalsyKey(StrKey(s))
    requires Find(m.mapping, StrKey(s)).Some? && Find(m.mapping, StrKey(s)).value.Str?
    ensures m.GetTarget(s).Success?
    ensures m.GetSource(m.GetTarget(s).value) == Success(s)
  {
    var t := Find(m.mapping, StrKey(s)).value.s;
    FoundAt(m.mapping, StrKey(s));
    var i :| 0 <= i < |m.mapping| && m.mapping[i] == (StrKey(s), Str(t));
    var j := SearchStrict(m.mapping, t).value;
    assert m.mapping[j].1 == m.mapping[i].1;
  }

  /** A value found under a falsy key is reported as not found. */
  lemma FalsyKeyReadsAsMissing(m: Mapper, t: string)
    requires SearchStrict(m.mapping, t).Some?
    requires IsFalsyKey(m.mapping[SearchStrict(m.mapping, t).value].0)
    ensures m.GetSource(t) == Success("")
  {
  }

  /** A numeric string names the integer key, so it is read under that key. */
  lemma NumericSourceUsesIntKey(n: int)
    requires IntMin <= n <= IntMax
    ensures ArrayKey(IntToString(n)) == IntKey(n)
  {
    IntToStringRoundTrip(n);
  }
}

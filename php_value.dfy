/**
 * The PHP values the SDK passes around, as the models in this project see them:
 * null, booleans, integers, byte strings and ordered arrays. Floats, objects and
 * resources are not values here. The module also holds the PHP built-ins the
 * core relies on: `empty()`, `??`, array reads and writes, the `(int)` and
 * `(string)` casts, ASCII `strtolower`/`strtoupper`, `trim` and `strpos`.
 */
module PhpValue {
  import opened Wrappers

  /** A PHP array key. */
  datatype Key = IntKey(n: int) | StrKey(s: string)

  /** A PHP value; an array is its entries in insertion order. */
  datatype Value =
    | Null
    | Bool(b: bool)
    | Int(i: int)
    | Str(s: string)
    | Arr(entries: seq<(Key, Value)>)

  // ---------------------------------------------------------------------------
  // Arrays
  // ---------------------------------------------------------------------------

  /** The entry stored under `k`. */
  function Find(es: seq<(Key, Value)>, k: Key): Option<Value>
  {
    if es == [] then None
    else if es[0].0 == k then Some(es[0].1)
    else Find(es[1..], k)
  }

  /**
   * `$v[k]` read with `??` or `isset` semantics: a missing key, a null entry
   * and a value that is not an array all read as null.
   */
  function GetKey(v: Value, k: Key): Value
  {
    if v.Arr? then Find(v.entries, k).GetOr(Null) else Null
  }

  function Get(v: Value, k: string): Value
  {
    GetKey(v, StrKey(k))
  }

  /** `$v ?? $default` once `$v` has been read. */
  function Coalesce(v: Value, default: Value): Value
  {
    if v.Null? then default else v
  }

  /** `$a[k] = x` on the entries of an array: an existing key keeps its place. */
  function Store(es: seq<(Key, Value)>, k: Key, x: Value): (r: seq<(Key, Value)>)
    ensures Find(r, k) == Some(x)
    ensures forall k' :: k' != k ==> Find(r, k') == Find(es, k')
  {
    if es == [] then [(k, x)]
    else if es[0].0 == k then [(k, x)] + es[1..]
    else [es[0]] + Store(es[1..], k, x)
  }

  /** `$a[k] = x`, where a null `$a` becomes a new array. */
  function Assign(a: Value, k: string, x: Value): (r: Value)
    requires a.Arr? || a.Null?
    ensures r.Arr? && Get(r, k) == x
    ensures forall k' :: k' != k ==> Get(r, k') == Get(a, k')
  {
    Arr(Store(if a.Arr? then a.entries else [], StrKey(k), x))
  }

  /** An array literal with string keys, `['k1' => v1, ...]`. */
  function Literal(fields: seq<(string, Value)>): Value
  {
    Arr(seq(|fields|, i requires 0 <= i < |fields| => (StrKey(fields[i].0), fields[i].1)))
  }

  /** A one-entry array literal, `['k' => v]`. */
  function Single(k: string, v: Value): (r: Value)
    ensures r.Arr? && Get(r, k) == v
    ensures forall k' :: k' != k ==> Get(r, k') == Null
  {
    var es := [(StrKey(k), v)];
    assert Find(es, StrKey(k)) == Some(v);
    assert forall k' :: k' != k ==> Find(es, StrKey(k')) == Find(es[1..], StrKey(k')) == None;
    Arr(es)
  }

  /** A two-entry array literal, `['k1' => v1, 'k2' => v2]`; with equal keys the second entry is not reachable by key. */
  function Pair(k1: string, v1: Value, k2: string, v2: Value): (r: Value)
    ensures r.Arr? && Get(r, k1) == v1
    ensures k2 != k1 ==> Get(r, k2) == v2
    ensures forall k :: k != k1 && k != k2 ==> Get(r, k) == Null
  {
    var es := [(StrKey(k1), v1), (StrKey(k2), v2)];
    var tail := [(StrKey(k2), v2)];
    assert es[1..] == tail && tail[1..] == [];
    assert Find(es, StrKey(k1)) == Some(v1);
    assert k2 != k1 ==> Find(es, StrKey(k2)) == Find(tail, StrKey(k2)) == Some(v2);
    assert forall k :: k != k1 && k != k2 ==>
      Find(es, StrKey(k)) == Find(tail, StrKey(k)) == Find(tail[1..], StrKey(k)) == None;
    Arr(es)
  }

  /** A PHP list, `[0 => x0, 1 => x1, ...]`. */
  function List(xs: seq<Value>): Value
  {
    Arr(seq(|xs|, i requires 0 <= i < |xs| => (IntKey(i), xs[i])))
  }

  /** `(array)$v`. */
  function ArrayCast(v: Value): Value
  {
    match v
    case Null => Arr([])
    case Arr(_) => v
    case _ => Arr([(IntKey(0), v)])
  }

  /** A key read back as a value, as `foreach ($a as $key => ...)` gives it. */
  function KeyValue(k: Key): Value
  {
    match k
    case IntKey(n) => Int(n)
    case StrKey(s) => Str(s)
  }

  // ---------------------------------------------------------------------------
  // empty() and truthiness
  // ---------------------------------------------------------------------------

  /** PHP `empty($s)` for a string: the empty string and "0". */
  predicate IsEmptyString(s: string)
  {
    s == "" || s == "0"
  }

  /** PHP `empty($v)`: null, false, 0, "", "0" and the empty array. */
  predicate IsEmpty(v: Value)
  {
    match v
    case Null => true
    case Bool(b) => !b
    case Int(i) => i == 0
    case Str(s) => IsEmptyString(s)
    case Arr(es) => es == []
  }

  // ---------------------------------------------------------------------------
  // Characters and strings (bytes; case mapping is ASCII only)
  // ---------------------------------------------------------------------------

  function LowerChar(c: char): char
  {
    if 'A' <= c <= 'Z' then (c as int + 32) as char else c
  }

  function UpperChar(c: char): char
  {
    if 'a' <= c <= 'z' then (c as int - 32) as char else c
  }

  /** `strtolower`. */
  function ToLower(s: string): (r: string)
    ensures |r| == |s|
  {
    seq(|s|, i requires 0 <= i < |s| => LowerChar(s[i]))
  }

  /** `strtoupper`. */
  function ToUpper(s: string): (r: string)
    ensures |r| == |s|
  {
    seq(|s|, i requires 0 <= i < |s| => UpperChar(s[i]))
  }

  /** The characters `trim` removes by default: " \t\n\r\0\x0B". */
  predicate IsTrimmable(c: char)
  {
    c == ' ' || c == '\t' || c == '\n' || c == '\r' || c == '\0' || c == 11 as char
  }

  function TrimStart(s: string): string
  {
    if |s| > 0 && IsTrimmable(s[0]) then TrimStart(s[1..]) else s
  }

  function TrimEnd(s: string): string
  {
    if |s| > 0 && IsTrimmable(s[|s| - 1]) then TrimEnd(s[..|s| - 1]) else s
  }

  /** `trim`. */
  function Trim(s: string): string
  {
    TrimEnd(TrimStart(s))
  }

  /** `substr($s, 0, $n)`. */
  function Prefix(s: string, n: nat): string
  {
    if |s| <= n then s else s[..n]
  }

  /** `pat` occurs in `s` at position `i`. */
  predicate MatchAt(s: string, pat: string, i: nat)
  {
    i + |pat| <= |s| && s[i..i + |pat|] == pat
  }

  /** `strpos($s, $pat, $from)`: the first occurrence at or after `from`. */
  function IndexOfFrom(s: string, pat: string, from: nat): (r: Option<nat>)
    requires from <= |s|
    ensures r.Some? ==> from <= r.value && MatchAt(s, pat, r.value)
    ensures r.Some? ==> forall j :: from <= j < r.value ==> !MatchAt(s, pat, j)
    ensures r.None? ==> forall j :: from <= j <= |s| ==> !MatchAt(s, pat, j)
    decreases |s| - from
  {
    if MatchAt(s, pat, from) then Some(from)
    else if from == |s| then None
    else IndexOfFrom(s, pat, from + 1)
  }

  // ---------------------------------------------------------------------------
  // Integers and their decimal form
  // ---------------------------------------------------------------------------

  predicate IsDigit(c: char)
  {
    '0' <= c <= '9'
  }

  function DigitChar(d: nat): char
    requires d < 10
  {
    ('0' as int + d) as char
  }

  function NatToString(n: nat): (r: string)
    ensures |r| > 0 && forall i :: 0 <= i < |r| ==> IsDigit(r[i])
  {
    if n < 10 then [DigitChar(n)] else NatToString(n / 10) + [DigitChar(n % 10)]
  }

  /** The decimal form PHP gives an integer, as in `(string)$n`. */
  function IntToString(n: int): string
  {
    if n < 0 then "-" + NatToString(-n) else NatToString(n)
  }

  /** The whitespace that may precede a numeric string: " \t\n\r\v\f". */
  predicate IsNumericSpace(c: char)
  {
    c == ' ' || c == '\t' || c == '\n' || c == '\r' || c == 11 as char || c == 12 as char
  }

  function SkipNumericSpace(s: string): string
  {
    if |s| > 0 && IsNumericSpace(s[0]) then SkipNumericSpace(s[1..]) else s
  }

  /** The number of leading decimal digits of `s`. */
  function DigitRun(s: string): (n: nat)
    ensures n <= |s| && forall i :: 0 <= i < n ==> IsDigit(s[i])
  {
    if |s| > 0 && IsDigit(s[0]) then 1 + DigitRun(s[1..]) else 0
  }

  function DigitsValue(ds: string): nat
    requires forall i :: 0 <= i < |ds| ==> IsDigit(ds[i])
  {
    if |ds| == 0 then 0
    else
      assert IsDigit(ds[|ds| - 1]);
      DigitsValue(ds[..|ds| - 1]) * 10 + (ds[|ds| - 1] as int - '0' as int)
  }

  /** The value of the decimal digits `s` starts with (0 when there are none). */
  function LeadingDigits(s: string): nat
  {
    DigitsValue(s[..DigitRun(s)])
  }

  function Pow10(e: nat): (r: nat)
    ensures r >= 1
  {
    if e == 0 then 1 else 10 * Pow10(e - 1)
  }

  /**
   * The exponent `s` starts with: 'e' or 'E', an optional sign and digits.
   * Without digits after it the letter is not part of the number, and the
   * exponent is 0.
   */
  function Exponent(s: string): int
  {
    if |s| == 0 || (s[0] != 'e' && s[0] != 'E') then 0
    else if |s| > 1 && s[1] == '-' then -(LeadingDigits(s[2..]) as int)
    else if |s| > 1 && s[1] == '+' then LeadingDigits(s[2..])
    else LeadingDigits(s[1..])
  }

  /** `m` times ten to the power `shift`, truncated toward zero. */
  function Scaled(m: nat, shift: int): nat
    decreases if shift >= 0 then shift else -shift
  {
    if shift == 0 then m
    else if shift > 0 then 10 * Scaled(m, shift - 1)
    else Scaled(m / 10, shift + 1)
  }

  /**
   * The magnitude PHP reads from the start of an unsigned numeric string:
   * digits, then optionally '.' and digits (at least one digit in all), then
   * optionally an exponent, truncated toward zero; 0 when there is no number.
   */
  function LeadingNumber(s: string): nat
  {
    var n := DigitRun(s);
    if n < |s| && s[n] == '.' then
      var rest := s[n + 1..];
      var k := DigitRun(rest);
      if n == 0 && k == 0 then 0
      else
        var mantissa := s[..n] + rest[..k];
        assert forall i :: 0 <= i < |mantissa| ==> IsDigit(mantissa[i]) by {
          forall i | 0 <= i < |mantissa| ensures IsDigit(mantissa[i]) {
            if i >= n { assert mantissa[i] == rest[i - n]; }
          }
        }
        Scaled(DigitsValue(mantissa), Exponent(rest[k..]) - k)
    else if n == 0 then 0
    else Scaled(DigitsValue(s[..n]), Exponent(s[n..]))
  }

  /**
   * `(int)$s` for a string: leading whitespace, an optional sign, then the
   * numeric prefix `LeadingNumber` reads; whatever follows is ignored.
   */
  function StringToInt(s: string): int
  {
    var t := SkipNumericSpace(s);
    if |t| > 0 && t[0] == '-' then -(LeadingNumber(t[1..]) as int)
    else if |t| > 0 && t[0] == '+' then LeadingNumber(t[1..])
    else LeadingNumber(t)
  }

  /** `(int)$v`. */
  function IntCast(v: Value): int
  {
    match v
    case Null => 0
    case Bool(b) => if b then 1 else 0
    case Int(i) => i
    case Str(s) => StringToInt(s)
    case Arr(es) => if es == [] then 0 else 1
  }

  /** `(string)$v`. */
  function StrCast(v: Value): string
  {
    match v
    case Null => ""
    case Bool(b) => if b then "1" else ""
    case Int(i) => IntToString(i)
    case Str(s) => s
    case Arr(_) => "Array"
  }

  /**
   * `$v == $word` for a word that is neither empty nor numeric (PHP 8 loose
   * comparison): strings compare as strings, an integer compares by its decimal
   * form, `true` equals every such word, null and arrays equal none.
   */
  predicate LooseEqualsWord(v: Value, word: string)
  {
    match v
    case Null => false
    case Bool(b) => b
    case Int(i) => IntToString(i) == word
    case Str(s) => s == word
    case Arr(_) => false
  }

  // ---------------------------------------------------------------------------
  // Lemmas
  // ---------------------------------------------------------------------------

  lemma {:induction false} DigitRunOfDigits(ds: string)
    requires forall i :: 0 <= i < |ds| ==> IsDigit(ds[i])
    ensures DigitRun(ds) == |ds|
  {
    if |ds| > 0 {
      DigitRunOfDigits(ds[1..]);
    }
  }

  lemma {:induction false} NatToStringValue(n: nat)
    ensures DigitsValue(NatToString(n)) == n
  {
    if n >= 10 {
      var s := NatToString(n);
      NatToStringValue(n / 10);
      assert s[..|s| - 1] == NatToString(n / 10);
    }
  }

  /** `(int)(string)$n == $n`: the decimal form reads back as the same integer. */
  lemma IntToStringRoundTrip(n: int)
    ensures StringToInt(IntToString(n)) == n
  {
    var m: nat := if n < 0 then -n else n;
    var ds := NatToString(m);
    DigitRunOfDigits(ds);
    NatToStringValue(m);
    assert ds[..DigitRun(ds)] == ds;
    if n < 0 {
      assert IntToString(n)[1..] == ds;
    }
  }

  /** Shifting left by `e` places multiplies by ten to the power `e`. */
  lemma {:induction false} ScaledUp(m: nat, e: nat)
    ensures Scaled(m, e) == m * Pow10(e)
  {
    if e > 0 {
      ScaledUp(m, e - 1);
      assert 10 * (m * Pow10(e - 1)) == m * (10 * Pow10(e - 1));
    }
  }

  /** Shifting right past appended digits drops exactly those digits. */
  lemma {:induction false} ScaledDropsDigits(ds: string, tail: string)
    requires forall i :: 0 <= i < |ds| ==> IsDigit(ds[i])
    requires forall i :: 0 <= i < |tail| ==> IsDigit(tail[i])
    ensures Scaled(DigitsValue(ds + tail), -|tail|) == DigitsValue(ds)
    decreases |tail|
  {
    if |tail| > 0 {
      var front := tail[..|tail| - 1];
      var all := ds + tail;
      assert all[..|all| - 1] == ds + front;
      ScaledDropsDigits(ds, front);
    } else {
      assert ds + tail == ds;
    }
  }

  /** The digit run of `ds` ends where a non-digit follows it. */
  lemma {:induction false} DigitRunStops(ds: string, rest: string)
    requires forall i :: 0 <= i < |ds| ==> IsDigit(ds[i])
    requires |rest| == 0 || !IsDigit(rest[0])
    ensures DigitRun(ds + rest) == |ds|
  {
    if |ds| > 0 {
      assert (ds + rest)[1..] == ds[1..] + rest;
      DigitRunStops(ds[1..], rest);
    } else {
      assert ds + rest == rest;
    }
  }

  /** `(int)"<m>e<e>"` is `m` times ten to the power `e`, as in `(int)"1e3" == 1000`. */
  lemma ExponentForm(m: nat, e: nat)
    ensures StringToInt(NatToString(m) + "e" + NatToString(e)) == m * Pow10(e)
  {
    var ms := NatToString(m);
    var s := ms + "e" + NatToString(e);
    assert LeadingNumber(s) == Scaled(m, e) by {
      ExponentDigits(ms, NatToString(e));
      NatToStringValue(m);
      NatToStringValue(e);
    }
    assert SkipNumericSpace(s) == s by {
      assert IsDigit(s[0]);
    }
    ScaledUp(m, e);
  }

  /** How `LeadingNumber` splits digits followed by an exponent. */
  lemma ExponentDigits(ms: string, es: string)
    requires |ms| > 0 && forall i :: 0 <= i < |ms| ==> IsDigit(ms[i])
    requires forall i :: 0 <= i < |es| ==> IsDigit(es[i])
    ensures LeadingNumber(ms + "e" + es) == Scaled(DigitsValue(ms), DigitsValue(es))
  {
    var s := ms + "e" + es;
    DigitRunStops(ms, "e" + es);
    assert s == ms + ("e" + es);
    assert s[..|ms|] == ms;
    assert s[|ms|..] == "e" + es;
    DigitRunOfDigits(es);
    assert ("e" + es)[1..] == es;
    assert es[..DigitRun(es)] == es;
  }

  /** `(int)"<a>.<digits>"` is `a`: the fractional part is truncated. */
  lemma FractionTruncated(a: nat, frac: string)
    requires forall i :: 0 <= i < |frac| ==> IsDigit(frac[i])
    ensures StringToInt(NatToString(a) + "." + frac) == a
  {
    var as_ := NatToString(a);
    var s := as_ + "." + frac;
    assert LeadingNumber(s) == a by {
      FractionDigits(as_, frac);
      NatToStringValue(a);
    }
    assert SkipNumericSpace(s) == s by {
      assert IsDigit(s[0]);
    }
  }

  /** How `LeadingNumber` reads digits, a point and more digits. */
  lemma FractionDigits(ws: string, frac: string)
    requires |ws| > 0 && forall i :: 0 <= i < |ws| ==> IsDigit(ws[i])
    requires forall i :: 0 <= i < |frac| ==> IsDigit(frac[i])
    ensures LeadingNumber(ws + "." + frac) == DigitsValue(ws)
  {
    var s := ws + "." + frac;
    DigitRunStops(ws, "." + frac);
    assert s == ws + ("." + frac);
    assert s[..|ws|] == ws;
    assert s[|ws| + 1..] == frac;
    DigitRunOfDigits(frac);
    assert frac[..|frac|] == frac;
    assert frac[|frac|..] == "";
    ScaledDropsDigits(ws, frac);
  }

  /** Different integers have different decimal forms. */
  lemma IntToStringInjective(a: int, b: int)
    requires IntToString(a) == IntToString(b)
    ensures a == b
  {
    IntToStringRoundTrip(a);
    IntToStringRoundTrip(b);
  }
}

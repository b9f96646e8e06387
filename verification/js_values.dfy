/**
 * The slice of JavaScript value semantics the record models rely on:
 * property lookup on a plain object, truthiness and `||`, `String.prototype.trim`,
 * the loose numeric comparison used by the priority check, and the `\s`
 * character class of regular expressions.
 */
module JsValues {
  import opened Base

  /** A property value: absent, null, a string, or an integral number. */
  datatype JsValue = Undefined | Null | Str(s: string) | Num(n: int)

  /**
   * A plain object literal or database row. Each model names the
   * properties it reads and writes by a key datatype `K` whose `Name()` is
   * the property name; properties no model reads are left out.
   */
  type JsObject<K> = map<K, JsValue>

  /** What `validate()` can throw instead of returning: `trim` called on a value that is not a string. */
  datatype JsError = TrimNotAFunction(field: string)

  /** `obj[key]`: a missing property reads as undefined. */
  function Prop<K>(o: JsObject<K>, key: K): JsValue
  {
    if key in o then o[key] else Undefined
  }

  /** JavaScript truthiness: undefined, null, the empty string and 0 are falsy. */
  predicate Truthy(v: JsValue)
  {
    match v
    case Undefined => false
    case Null => false
    case Str(s) => s != []
    case Num(n) => n != 0
  }

  /** `a || b`: the left operand when it is truthy, otherwise the right one. */
  function Or(a: JsValue, b: JsValue): JsValue
  {
    if Truthy(a) then a else b
  }

  /** `a || b || fallback` where b is only consulted when a is falsy: the first truthy of the two keys wins. */
  function Prefer<K>(o: JsObject<K>, first: K, second: K, fallback: JsValue): JsValue
  {
    Or(Or(Prop(o, first), Prop(o, second)), fallback)
  }

  /**
   * The characters ECMAScript counts as white space or line terminators: the
   * set `trim` strips and the regular-expression class `\s` matches.
   */
  predicate IsWhitespace(c: char)
  {
    || ('\U{9}' <= c <= '\U{D}')      // tab, line feed, vertical tab, form feed, carriage return
    || c == ' ' || c == '\U{A0}' || c == '\U{1680}'
    || ('\U{2000}' <= c <= '\U{200A}')
    || c == '\U{2028}' || c == '\U{2029}' || c == '\U{202F}' || c == '\U{205F}'
    || c == '\U{3000}' || c == '\U{FEFF}'
  }

  /** Every character of `s` is white space (so an empty `s` is). */
  predicate AllWhitespace(s: string)
  {
    forall k :: 0 <= k < |s| ==> IsWhitespace(s[k])
  }

  /** How many white-space characters `s` starts with. */
  function LeadingSpace(s: string): (n: nat)
    ensures n <= |s|
    ensures forall k :: 0 <= k < n ==> IsWhitespace(s[k])
    ensures n < |s| ==> !IsWhitespace(s[n])
    decreases |s|
  {
    if s != [] && IsWhitespace(s[0]) then
      var m := LeadingSpace(s[1..]);
      assert forall k :: 1 <= k < m + 1 ==> s[k] == s[1..][k - 1];
      m + 1
    else
      0
  }

  /** How many white-space characters `s` ends with. */
  function TrailingSpace(s: string): (n: nat)
    ensures n <= |s|
    ensures forall k :: |s| - n <= k < |s| ==> IsWhitespace(s[k])
    ensures n < |s| ==> !IsWhitespace(s[|s| - n - 1])
    decreases |s|
  {
    if s != [] && IsWhitespace(s[|s| - 1]) then
      var m := TrailingSpace(s[..|s| - 1]);
      assert forall k :: |s| - 1 - m <= k < |s| - 1 ==> s[k] == s[..|s| - 1][k];
      m + 1
    else
      0
  }

  /** `s` with its leading white space removed. */
  function TrimStart(s: string): (r: string)
    ensures |r| <= |s| && r == s[|s| - |r|..]
    ensures AllWhitespace(s[..|s| - |r|])
    ensures r != [] ==> !IsWhitespace(r[0])
  {
    var n := LeadingSpace(s);
    assert forall k :: 0 <= k < n ==> s[..n][k] == s[k];
    s[n..]
  }

  /** `s` with its trailing white space removed. */
  function TrimEnd(s: string): (r: string)
    ensures |r| <= |s| && r == s[..|r|]
    ensures AllWhitespace(s[|r|..])
    ensures r != [] ==> !IsWhitespace(r[|r| - 1])
  {
    var n := TrailingSpace(s);
    assert forall k :: |s| - n <= k < |s| ==> s[|s| - n..][k - (|s| - n)] == s[k];
    s[..|s| - n]
  }

  /**
   * `s.trim()`: leading and trailing white space cut off. It is empty exactly
   * when `s` is all white space, and otherwise neither starts nor ends with it.
   */
  function Trim(s: string): (r: string)
    ensures |r| <= |s|
    ensures r == [] <==> AllWhitespace(s)
    ensures r != [] ==> !IsWhitespace(r[0]) && !IsWhitespace(r[|r| - 1])
  {
    var t := TrimStart(s);
    var r := TrimEnd(t);
    StartEmptyIff(s, t);
    EndEmptyIff(t, r);
    r
  }

  lemma StartEmptyIff(s: string, t: string)
    requires |t| <= |s| && t == s[|s| - |t|..] && AllWhitespace(s[..|s| - |t|])
    requires t != [] ==> !IsWhitespace(t[0])
    ensures t == [] <==> AllWhitespace(s)
  {
    if t == [] {
      assert s[..|s| - |t|] == s;
    } else {
      assert s[|s| - |t|] == t[0];
    }
  }

  lemma EndEmptyIff(t: string, r: string)
    requires |r| <= |t| && r == t[..|r|] && AllWhitespace(t[|r|..])
    requires r != [] ==> !IsWhitespace(r[|r| - 1])
    ensures r == [] <==> AllWhitespace(t)
  {
    if r == [] {
      assert t[|r|..] == t;
    } else {
      assert t[|r| - 1] == r[|r| - 1];
    }
  }

  /**
   * What `trim` leaves is a slice of its input, and everything it cut off on
   * either side is white space.
   */
  lemma TrimIsInnerSlice(s: string)
    ensures exists i :: (0 <= i <= |s| - |Trim(s)| && Trim(s) == s[i..i + |Trim(s)|]
                         && AllWhitespace(s[..i]) && AllWhitespace(s[i + |Trim(s)|..]))
  {
    var t := TrimStart(s);
    var r := TrimEnd(t);
    var i := |s| - |t|;
    assert r == s[i..i + |r|];
    assert s[i + |r|..] == t[|r|..];
    assert Trim(s) == r;
    assert AllWhitespace(s[..i]) && AllWhitespace(s[i + |r|..]);
  }

  /** A value that is falsy or a string of white space only. */
  predicate IsBlank(v: JsValue)
  {
    !Truthy(v) || (v.Str? && AllWhitespace(v.s))
  }

  /**
   * `IsBlank` is the test `!v || v.trim().length === 0`, for a value on which
   * `trim` does not throw.
   */
  lemma BlankIffTrimmedEmpty(v: JsValue)
    requires !TrimThrows(v)
    ensures IsBlank(v) <==> !Truthy(v) || |Trim(v.s)| == 0
  {
  }

  /** `v && v.trim()` throws: `v` is truthy and not a string, so it has no `trim` method. */
  predicate TrimThrows(v: JsValue)
  {
    Truthy(v) && !v.Str?
  }

  /** `v.length > bound`, false for values without a length (`undefined > n` is false). */
  predicate LongerThan(v: JsValue, bound: nat)
  {
    v.Str? && |v.s| > bound
  }

  /** The value of a decimal digit. */
  function DigitValue(c: char): (d: nat)
    requires '0' <= c <= '9'
    ensures d < 10
  {
    (c as int) - ('0' as int)
  }

  /** The number a non-empty run of decimal digits denotes, most significant first. */
  function DigitsValue(s: string): (n: nat)
    requires forall k :: 0 <= k < |s| ==> '0' <= s[k] <= '9'
    decreases |s|
  {
    if s == [] then 0 else DigitsValue(s[..|s| - 1]) * 10 + DigitValue(s[|s| - 1])
  }

  predicate AllDigits(s: string)
  {
    s != [] && forall k :: 0 <= k < |s| ==> '0' <= s[k] <= '9'
  }

  /**
   * The number a string converts to in a relational comparison: surrounding
   * white space is ignored, an empty remainder is 0, an optionally signed run
   * of decimal digits is its value, and anything else is NaN (None).
   */
  function StringToNumber(s: string): (r: Option<int>)
    ensures AllWhitespace(s) ==> r == Some(0)
    ensures AllDigits(Trim(s)) ==> r == Some(DigitsValue(Trim(s)))
  {
    var t := Trim(s);
    if t == [] then Some(0)
    else if AllDigits(t) then Some(DigitsValue(t))
    else if t[0] == '+' && AllDigits(t[1..]) then Some(DigitsValue(t[1..]))
    else if t[0] == '-' && AllDigits(t[1..]) then Some(0 - DigitsValue(t[1..]) as int)
    else None
  }

  /** The number a value converts to before `<` or `>`: null is 0, undefined is NaN (None). */
  function ToNumber(v: JsValue): (r: Option<int>)
    ensures v.Num? ==> r == Some(v.n)
    ensures v == Null ==> r == Some(0)
    ensures v == Undefined ==> r == None
  {
    match v
    case Undefined => None
    case Null => Some(0)
    case Num(n) => Some(n)
    case Str(s) => StringToNumber(s)
  }

  /** `v < lo || v > hi`: false whenever the value converts to NaN. */
  predicate OutsideRange(v: JsValue, lo: int, hi: int)
  {
    var n := ToNumber(v);
    n.Some? && (n.value < lo || n.value > hi)
  }

  /** `list.includes(v)` for a list of string literals: strict equality with one of them. */
  predicate OneOf(v: JsValue, list: seq<string>)
  {
    v.Str? && v.s in list
  }
}

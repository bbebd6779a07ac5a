/**
  The Python values the pipeline passes around: JSON values, dictionaries with
  `dict.get`, Python truthiness, `str()`, and the handful of `str` methods the
  source calls (`find`, `rfind`, slicing, `strip`, `lower`, `in`).
  Messages of the exceptions Python raises are reproduced where the source
  turns them into data (`str(e)`).
*/
module PyJson {
  import opened Wrappers

  /** A decoded JSON value (floats are not modelled). */
  datatype Json =
    | JNull
    | JBool(b: bool)
    | JInt(i: int)
    | JStr(s: string)
    | JArr(items: seq<Json>)
    | JObj(fields: map<string, Json>)

  /** A Python dict with string keys; key order is not modelled. */
  type Dict = map<string, Json>

  /** `d.get(key, default)` */
  function Get(d: Dict, key: string, default: Json): Json
  {
    if key in d then d[key] else default
  }

  /** Python's `bool(v)`. */
  predicate Truthy(v: Json)
  {
    match v
    case JNull => false
    case JBool(b) => b
    case JInt(i) => i != 0
    case JStr(s) => s != ""
    case JArr(xs) => xs != []
    case JObj(m) => m != map[]
  }

  /** `type(v).__name__` */
  function TypeName(v: Json): string
  {
    match v
    case JNull => "NoneType"
    case JBool(_) => "bool"
    case JInt(_) => "int"
    case JStr(_) => "str"
    case JArr(_) => "list"
    case JObj(_) => "dict"
  }

  function DigitChar(d: nat): char
    requires d < 10
  {
    "0123456789"[d]
  }

  /** Decimal digits of a natural number, as `str(n)` writes them. */
  function NatDigits(n: nat): (r: string)
    ensures |r| >= 1
    decreases n
  {
    if n < 10 then [DigitChar(n)] else NatDigits(n / 10) + [DigitChar(n % 10)]
  }

  /** `str(i)` for an int. */
  function IntString(i: int): string
  {
    if i < 0 then "-" + NatDigits(-i) else NatDigits(i)
  }

  /** Python's `str(v)`. Scalars are rendered exactly; the repr of a list or
      dict is supplied by `reprContainer`. */
  function PyStr(v: Json, reprContainer: Json -> string): string
  {
    match v
    case JNull => "None"
    case JBool(b) => if b then "True" else "False"
    case JInt(i) => IntString(i)
    case JStr(s) => s
    case JArr(_) => reprContainer(v)
    case JObj(_) => reprContainer(v)
  }

  /** `x >= n` for a JSON value `x` and an int `n`: bools compare as 0/1,
      anything other than a number raises TypeError. */
  function AtLeast(x: Json, n: int): Result<bool>
  {
    match x
    case JInt(i) => Success(i >= n)
    case JBool(b) => Success((if b then 1 else 0) >= n)
    case _ => Failure("'>=' not supported between instances of '" + TypeName(x) + "' and 'int'")
  }

  /** `len(x)`; scalars raise TypeError. */
  function PyLen(x: Json): Result<nat>
  {
    match x
    case JStr(s) => Success(|s|)
    case JArr(xs) => Success(|xs|)
    case JObj(m) => Success(|m|)
    case _ => Failure("object of type '" + TypeName(x) + "' has no len()")
  }

  /** `x.get(key, default)`: only a dict has a `get` method. */
  function DotGet(x: Json, key: string, default: Json): Result<Json>
  {
    match x
    case JObj(m) => Success(Get(m, key, default))
    case _ => Failure("'" + TypeName(x) + "' object has no attribute 'get'")
  }

  /** `x[0]` */
  function Index0(x: Json): Result<Json>
  {
    match x
    case JArr(xs) => if xs == [] then Failure("list index out of range") else Success(xs[0])
    case JStr(s) => if s == "" then Failure("string index out of range") else Success(JStr([s[0]]))
    case JObj(_) => Failure("0")
    case _ => Failure("'" + TypeName(x) + "' object is not subscriptable")
  }

  /** `x.strip()`: only a str has a `strip` method. */
  function DotStrip(x: Json): Result<string>
  {
    match x
    case JStr(s) => Success(Strip(s))
    case _ => Failure("'" + TypeName(x) + "' object has no attribute 'strip'")
  }

  /** The characters for which Python's `str.isspace()` holds. */
  predicate IsSpace(c: char)
  {
    ('\t' <= c <= '\r') || ('\U{1C}' <= c <= '\U{1F}') || c == ' ' || c == '\U{85}'
    || c == '\U{A0}' || c == '\U{1680}' || ('\U{2000}' <= c <= '\U{200A}')
    || c == '\U{2028}' || c == '\U{2029}' || c == '\U{202F}' || c == '\U{205F}' || c == '\U{3000}'
  }

  function StripStart(s: string): string
  {
    if s != [] && IsSpace(s[0]) then StripStart(s[1..]) else s
  }

  function StripEnd(s: string): string
  {
    if s != [] && IsSpace(s[|s| - 1]) then StripEnd(s[..|s| - 1]) else s
  }

  /** `s.strip()` */
  function Strip(s: string): string
  {
    StripEnd(StripStart(s))
  }

  function LowerChar(c: char): char
  {
    if 'A' <= c <= 'Z' then (c as int + 32) as char else c
  }

  /** `s.lower()`, for the ASCII letters. */
  function Lower(s: string): string
  {
    if s == [] then [] else [LowerChar(s[0])] + Lower(s[1..])
  }

  /** Lowering works character by character and keeps the length; no
      upper-case ASCII letter is left. */
  lemma {:induction false} LowerChars(s: string)
    ensures |Lower(s)| == |s|
    ensures forall i :: 0 <= i < |s| ==> Lower(s)[i] == LowerChar(s[i]) && !('A' <= Lower(s)[i] <= 'Z')
  {
    if s != [] {
      LowerChars(s[1..]);
      assert forall i :: 1 <= i < |s| ==> Lower(s)[i] == Lower(s[1..])[i - 1];
    }
  }

  /** `sub in s` for strings. */
  predicate HasSubstring(s: string, sub: string)
  {
    |sub| <= |s| && (s[..|sub|] == sub || (s != [] && HasSubstring(s[1..], sub)))
  }

  /** A string without the first character of `sub` does not contain `sub`. */
  lemma {:induction false} NoSubstringWithoutFirst(s: string, sub: string)
    requires sub != [] && sub[0] !in s
    ensures !HasSubstring(s, sub)
  {
    if |sub| <= |s| {
      assert s[..|sub|][0] == s[0];
      if s != [] {
        assert forall c :: c in s[1..] ==> c in s;
        NoSubstringWithoutFirst(s[1..], sub);
      }
    }
  }

  /** `s.find(c)`: the first index of `c`, or -1. */
  function Find(s: string, c: char): (r: int)
    ensures -1 <= r < |s|
    ensures r >= 0 ==> s[r] == c && forall j :: 0 <= j < r ==> s[j] != c
    ensures r < 0 <==> c !in s
  {
    if s == [] then -1
    else if s[0] == c then 0
    else
      var k := Find(s[1..], c);
      assert forall j :: 1 <= j < |s| ==> s[j] == s[1..][j - 1];
      if k < 0 then -1 else k + 1
  }

  /** `s.rfind(c)`: the last index of `c`, or -1. */
  function RFind(s: string, c: char): (r: int)
    ensures -1 <= r < |s|
    ensures r >= 0 ==> s[r] == c && forall j :: r < j < |s| ==> s[j] != c
    ensures r < 0 <==> c !in s
  {
    if s == [] then -1
    else if s[|s| - 1] == c then |s| - 1
    else
      var k := RFind(s[..|s| - 1], c);
      assert forall j :: 0 <= j < |s| - 1 ==> s[j] == s[..|s| - 1][j];
      k
  }

  /** Python's clamping of one slice bound against a length. */
  function SliceBound(x: int, len: nat): (b: nat)
    ensures b <= len
  {
    if x < 0 then (if x + len < 0 then 0 else x + len)
    else if x > len then len
    else x
  }

  /** `s[start:end]` with Python's negative-index and clamping rules. */
  function PySlice(s: string, start: int, end: int): string
  {
    var a, b := SliceBound(start, |s|), SliceBound(end, |s|);
    if a < b then s[a..b] else ""
  }
}

/**
 * JavaScript values as the workflow engine sees them: trigger payloads, condition
 * values and action configurations are untyped JSON, and the engine applies
 * JavaScript's coercions to them (`String(v)`, `Number(v)`, truthiness, `===`,
 * optional-chaining property access).
 */
module JsValue {
  import opened Wrappers

  /** A JSON value, plus `undefined` (Absent). Numbers are finite: JSON has no NaN. */
  datatype Value =
    | Absent
    | Null
    | Bool(b: bool)
    | Num(n: real)
    | Str(s: string)
    | Arr(items: seq<Value>)
    | Obj(fields: map<string, Value>)

  /** JavaScript truthiness: `undefined`, `null`, `false`, `0` and `""` are falsy. */
  predicate Truthy(v: Value) {
    match v
    case Absent => false
    case Null => false
    case Bool(b) => b
    case Num(n) => n != 0.0
    case Str(s) => s != ""
    case Arr(_) => true
    case Obj(_) => true
  }

  /** `a || b`: the first operand when it is truthy, the second otherwise. */
  function Or(a: Value, b: Value): (r: Value)
    ensures Truthy(a) ==> r == a
    ensures !Truthy(a) ==> r == b
  {
    if Truthy(a) then a else b
  }

  /** `a === b`. Two objects or arrays are never the same reference here: the
      operands always come from different documents. */
  predicate StrictEquals(a: Value, b: Value) {
    match (a, b)
    case (Absent, Absent) => true
    case (Null, Null) => true
    case (Bool(x), Bool(y)) => x == y
    case (Num(x), Num(y)) => x == y
    case (Str(x), Str(y)) => x == y
    case _ => false
  }

  // ---------------------------------------------------------------------------
  // Decimal digits
  // ---------------------------------------------------------------------------

  predicate IsDigit(c: char) { '0' <= c <= '9' }

  predicate AllDigits(s: string) { forall i :: 0 <= i < |s| ==> IsDigit(s[i]) }

  function DigitChar(d: nat): (c: char)
    requires d < 10
    ensures IsDigit(c) && (c as int) - ('0' as int) == d
  {
    ((('0' as int) + d) as char)
  }

  /** The value of a string of decimal digits (most significant first). */
  function DigitsValue(s: string): nat
    requires AllDigits(s)
  {
    if s == [] then 0 else DigitsValue(s[..|s| - 1]) * 10 + ((s[|s| - 1] as int) - ('0' as int))
  }

  /** The shortest decimal rendering of a natural number. */
  function NatToStr(n: nat): (s: string)
    ensures |s| >= 1 && AllDigits(s)
    ensures |s| > 1 ==> s[0] != '0'
    decreases n
  {
    if n < 10 then [DigitChar(n)] else NatToStr(n / 10) + [DigitChar(n % 10)]
  }

  function IntToStr(i: int): string {
    if i < 0 then "-" + NatToStr(-i) else NatToStr(i)
  }

  /** Reading back a rendered natural number gives the number. */
  lemma {:induction false} NatToStrRoundTrip(n: nat)
    ensures DigitsValue(NatToStr(n)) == n
    decreases n
  {
    if n >= 10 {
      NatToStrRoundTrip(n / 10);
      var s := NatToStr(n);
      assert s[..|s| - 1] == NatToStr(n / 10);
    }
  }

  // ---------------------------------------------------------------------------
  // String(v)
  // ---------------------------------------------------------------------------

  /** Up to `k` fractional digits of `f`, which lies in [0, 1); stops at the last non-zero digit. */
  function FracDigits(f: real, k: nat): (s: string)
    requires 0.0 <= f < 1.0
    decreases k
  {
    if k == 0 || f == 0.0 then ""
    else
      var scaled := f * 10.0;
      var d := scaled.Floor;
      [DigitChar(d)] + FracDigits(scaled - d as real, k - 1)
  }

  /** `String(n)` for a finite number: exact for integers (below 1e21), and up to 17
      fractional digits otherwise. */
  function NumToStr(r: real): string
    decreases if r < 0.0 then 1 else 0
  {
    if r < 0.0 then "-" + NumToStr(-r)
    else if r == r.Floor as real then NatToStr(r.Floor)
    else NatToStr(r.Floor) + "." + FracDigits(r - r.Floor as real, 17)
  }

  /** `String(v)`. */
  function ToStr(v: Value): string
    decreases v, 1
  {
    match v
    case Absent => "undefined"
    case Null => "null"
    case Bool(b) => if b then "true" else "false"
    case Num(n) => NumToStr(n)
    case Str(s) => s
    case Arr(_) => JoinItems(v, 0)
    case Obj(_) => "[object Object]"
  }

  /** `Array.prototype.join(",")` from index `i` on: `null` and `undefined` elements print as "". */
  function JoinItems(arr: Value, i: nat): string
    requires arr.Arr?
    decreases arr, 0, |arr.items| - i
  {
    if i >= |arr.items| then ""
    else
      var x := arr.items[i];
      var text := if x.Absent? || x.Null? then "" else ToStr(x);
      (if i > 0 then "," else "") + text + JoinItems(arr, i + 1)
  }

  // ---------------------------------------------------------------------------
  // Number(v)
  // ---------------------------------------------------------------------------

  /** The characters `String.prototype.trim` removes: the white space and line
      terminators of ECMAScript (tab, vertical tab, form feed, space, no-break
      space, byte order mark, the other space separators of Unicode category Zs,
      line feed, carriage return, line and paragraph separators). */
  predicate IsWhitespace(c: char) {
    c == ' ' || c == '\t' || c == '\n' || c == '\r' || c == '\U{000B}' || c == '\U{000C}'
    || c == '\U{00A0}' || c == '\U{FEFF}' || c == '\U{2028}' || c == '\U{2029}'
    || c == '\U{1680}' || '\U{2000}' <= c <= '\U{200A}' || c == '\U{202F}' || c == '\U{205F}' || c == '\U{3000}'
  }

  /** `s.trimStart()`: drops the leading whitespace and nothing else. */
  function TrimStart(s: string): (r: string)
    ensures |r| <= |s| && r == s[|s| - |r|..]
    ensures r != [] ==> !IsWhitespace(r[0])
    ensures forall i :: 0 <= i < |s| - |r| ==> IsWhitespace(s[i])
  {
    if s != [] && IsWhitespace(s[0]) then TrimStart(s[1..]) else s
  }

  /** `s.trimEnd()`: drops the trailing whitespace and nothing else. */
  function TrimEnd(s: string): (r: string)
    ensures |r| <= |s| && r == s[..|r|]
    ensures r != [] ==> !IsWhitespace(r[|r| - 1])
    ensures forall i :: |r| <= i < |s| ==> IsWhitespace(s[i])
  {
    if s != [] && IsWhitespace(s[|s| - 1]) then TrimEnd(s[..|s| - 1]) else s
  }

  /** Neither starts nor ends with whitespace. */
  predicate Trimmed(s: string) {
    s != [] ==> !IsWhitespace(s[0]) && !IsWhitespace(s[|s| - 1])
  }

  /** `s.trim()`: the result is the middle of `s` left once the whitespace run at
      each end is dropped, so it neither starts nor ends with whitespace. */
  function Trim(s: string): (r: string)
    ensures Trimmed(r)
    ensures var a := |s| - |TrimStart(s)|;
            && a + |r| <= |s| && r == s[a..a + |r|]
            && (forall i :: 0 <= i < a ==> IsWhitespace(s[i]))
            && (forall i :: a + |r| <= i < |s| ==> IsWhitespace(s[i]))
  {
    TrimEnd(TrimStart(s))
  }

  /** A string that neither starts nor ends with whitespace is its own trim. */
  lemma TrimUnchanged(s: string)
    requires Trimmed(s)
    ensures Trim(s) == s
  {
    assert TrimStart(s) == s;
  }

  /** Trimming twice is trimming once. */
  lemma TrimIdempotent(s: string)
    ensures Trim(Trim(s)) == Trim(s)
  {
    var t := Trim(s);
    if t != [] {
      assert TrimStart(t) == t;
      assert TrimEnd(t) == t;
    }
  }

  function Pow10(e: nat): (p: nat)
    ensures p >= 1
  {
    if e == 0 then 1 else 10 * Pow10(e - 1)
  }

  /** The first index at or after `i` holding `c`. */
  function IndexOf(s: string, c: char, i: nat): (r: Option<nat>)
    ensures r.Some? ==> i <= r.value < |s| && s[r.value] == c
    ensures r.Some? ==> forall k :: i <= k < r.value ==> s[k] != c
    ensures r.None? ==> forall k :: i <= k < |s| ==> s[k] != c
    decreases |s| - i
  {
    if i >= |s| then None else if s[i] == c then Some(i) else IndexOf(s, c, i + 1)
  }

  /** An unsigned decimal mantissa: digits, optionally a point and more digits, at least one digit. */
  function ParseMantissa(m: string): Option<real> {
    match IndexOf(m, '.', 0)
    case None =>
      if m != [] && AllDigits(m) then Some(DigitsValue(m) as real) else None
    case Some(p) =>
      var whole, frac := m[..p], m[p + 1..];
      if AllDigits(whole) && AllDigits(frac) && |whole| + |frac| > 0 then
        Some(DigitsValue(whole) as real + (DigitsValue(frac) as real) / (Pow10(|frac|) as real))
      else None
  }

  /** A decimal exponent: an optional sign and at least one digit. */
  function ParseExponent(x: string): Option<int> {
    if x != [] && (x[0] == '+' || x[0] == '-') then
      var digits := x[1..];
      if digits != [] && AllDigits(digits) then
        Some(if x[0] == '-' then -(DigitsValue(digits) as int) else DigitsValue(digits) as int)
      else None
    else if x != [] && AllDigits(x) then Some(DigitsValue(x) as int)
    else None
  }

  function ScaleByPow10(r: real, e: int): real {
    if e >= 0 then r * (Pow10(e) as real) else r / (Pow10(-e) as real)
  }

  /** An unsigned decimal literal with an optional exponent; None is NaN. */
  function ParseUnsigned(u: string): Option<real> {
    var ePos := match IndexOf(u, 'e', 0) case Some(i) => Some(i) case None => IndexOf(u, 'E', 0);
    match ePos
    case None => ParseMantissa(u)
    case Some(i) =>
      match (ParseMantissa(u[..i]), ParseExponent(u[i + 1..]))
      case (Some(m), Some(e)) => Some(ScaleByPow10(m, e))
      case _ => None
  }

  /** `Number(s)` for a string: blank is 0, otherwise a signed decimal literal, else NaN (None). */
  function StrToNum(s: string): Option<real> {
    var t := Trim(s);
    if t == "" then Some(0.0)
    else if t[0] == '-' then
      match ParseUnsigned(t[1..]) case Some(r) => Some(-r) case None => None
    else if t[0] == '+' then ParseUnsigned(t[1..])
    else ParseUnsigned(t)
  }

  /** `Number(v)`; None stands for NaN, which makes every comparison false. */
  function ToNum(v: Value): Option<real> {
    match v
    case Absent => None
    case Null => Some(0.0)
    case Bool(b) => Some(if b then 1.0 else 0.0)
    case Num(n) => Some(n)
    case Str(s) => StrToNum(s)
    case Arr(_) => StrToNum(ToStr(v))
    case Obj(_) => None
  }

  /** `Number(String(n)) === n` for every natural number. */
  lemma NumberOfRenderedNat(n: nat)
    ensures ToNum(Str(NatToStr(n))) == Some(n as real)
  {
    var s := NatToStr(n);
    NatToStrRoundTrip(n);
    DigitStringIsNumber(s);
  }

  lemma DigitStringIsNumber(s: string)
    requires |s| >= 1 && AllDigits(s)
    ensures StrToNum(s) == Some(DigitsValue(s) as real)
  {
    NoWhitespaceInDigits(s);
    DigitsParseUnsigned(s);
    assert s[0] != '-' && s[0] != '+' by { assert IsDigit(s[0]); }
    assert StrToNum(s) == ParseUnsigned(s);
  }

  lemma DigitsParseUnsigned(s: string)
    requires |s| >= 1 && AllDigits(s)
    ensures ParseUnsigned(s) == Some(DigitsValue(s) as real)
  {
    DigitsHaveNo(s, '.');
    DigitsHaveNo(s, 'e');
    DigitsHaveNo(s, 'E');
  }

  lemma DigitsHaveNo(s: string, c: char)
    requires AllDigits(s) && !IsDigit(c)
    ensures IndexOf(s, c, 0).None?
  {
  }

  lemma NoWhitespaceInDigits(s: string)
    requires |s| >= 1 && AllDigits(s)
    ensures Trim(s) == s
  {
    assert IsDigit(s[0]) && IsDigit(s[|s| - 1]);
    TrimUnchanged(s);
  }

  // ---------------------------------------------------------------------------
  // Case and substrings
  // ---------------------------------------------------------------------------

  function LowerChar(c: char): char {
    if 'A' <= c <= 'Z' then ((c as int) + 32) as char else c
  }

  /** `s.toLowerCase()` on ASCII letters. */
  function Lower(s: string): (r: string)
    ensures |r| == |s|
    ensures forall i :: 0 <= i < |s| ==> r[i] == LowerChar(s[i])
  {
    if s == [] then [] else [LowerChar(s[0])] + Lower(s[1..])
  }

  lemma LowerIdempotent(s: string)
    ensures Lower(Lower(s)) == Lower(s)
  {
  }

  /** `needle` occurs in `hay` starting at index `i`. */
  predicate OccursAt(hay: string, needle: string, i: nat) {
    i + |needle| <= |hay| && hay[i..i + |needle|] == needle
  }

  /** `hay.includes(needle)`: some index of `hay` starts an occurrence of `needle`. */
  function Includes(hay: string, needle: string): (r: bool)
    ensures r <==> exists i: nat :: OccursAt(hay, needle, i)
    decreases |hay|
  {
    if needle <= hay then
      assert OccursAt(hay, needle, 0);
      true
    else if hay == [] then
      assert forall i: nat :: !OccursAt(hay, needle, i);
      false
    else
      var r := Includes(hay[1..], needle);
      IncludesShift(hay, needle);
      r
  }

  lemma IncludesShift(hay: string, needle: string)
    requires hay != [] && !(needle <= hay)
    ensures (exists i: nat :: OccursAt(hay, needle, i)) <==> (exists i: nat :: OccursAt(hay[1..], needle, i))
  {
    if exists i: nat :: OccursAt(hay, needle, i) {
      var i: nat :| OccursAt(hay, needle, i);
      if i == 0 { assert false; }
      assert hay[1..][i - 1..i - 1 + |needle|] == hay[i..i + |needle|];
      assert OccursAt(hay[1..], needle, i - 1);
    }
    if exists i: nat :: OccursAt(hay[1..], needle, i) {
      var i: nat :| OccursAt(hay[1..], needle, i);
      assert hay[1..][i..i + |needle|] == hay[i + 1..i + 1 + |needle|];
      assert OccursAt(hay, needle, i + 1);
    }
  }

  // ---------------------------------------------------------------------------
  // Property access and dot paths
  // ---------------------------------------------------------------------------

  /** A canonical array index ("0", "1", ... without leading zeros). */
  function ArrayIndex(key: string): Option<nat> {
    if key != [] && AllDigits(key) && (key == "0" || key[0] != '0') then Some(DigitsValue(key)) else None
  }

  /** `v?.[key]`: own properties of objects, `length` and indices of arrays and
      strings, and `undefined` for everything else (including `null`/`undefined` bases). */
  function Get(v: Value, key: string): Value {
    match v
    case Obj(m) => if key in m then m[key] else Absent
    case Arr(xs) =>
      if key == "length" then Num(|xs| as real)
      else (match ArrayIndex(key) case Some(i) => if i < |xs| then xs[i] else Absent case None => Absent)
    case Str(s) =>
      if key == "length" then Num(|s| as real)
      else (match ArrayIndex(key) case Some(i) => if i < |s| then Str([s[i]]) else Absent case None => Absent)
    case _ => Absent
  }

  /** The keys `{ ...v }` takes from `v`: an object's own properties; `null`,
      `undefined`, booleans and numbers contribute none. Arrays and strings (whose
      spread yields index keys) contribute none here either. */
  function Spread(v: Value): map<string, Value> {
    if v.Obj? then v.fields else map[]
  }

  /** `s.split(sep)`: the parts between separators, in order; never empty. */
  function Split(s: string, sep: char): (parts: seq<string>)
    ensures |parts| >= 1
    ensures forall p :: p in parts ==> sep !in p
  {
    if s == [] then [""]
    else if s[0] == sep then [""] + Split(s[1..], sep)
    else
      var rest := Split(s[1..], sep);
      [[s[0]] + rest[0]] + rest[1..]
  }

  /** A string without the separator splits into itself alone. */
  lemma {:induction false} SplitWithoutSeparator(s: string, sep: char)
    requires sep !in s
    ensures Split(s, sep) == [s]
  {
    if s != [] {
      SplitWithoutSeparator(s[1..], sep);
      assert [s[0]] + s[1..] == s;
    }
  }

  /** `parts.join(sep)`. */
  function Join(parts: seq<string>, sep: string): string {
    if parts == [] then ""
    else if |parts| == 1 then parts[0]
    else parts[0] + sep + Join(parts[1..], sep)
  }

  /** Splitting and joining again gives back the original path. */
  lemma {:induction false} SplitJoin(s: string, sep: char)
    ensures Join(Split(s, sep), [sep]) == s
  {
    if s == [] {
    } else if s[0] == sep {
      SplitJoin(s[1..], sep);
      assert s == [sep] + s[1..];
    } else {
      SplitJoin(s[1..], sep);
      var rest := Split(s[1..], sep);
      if |rest| == 1 {
        assert s == [s[0]] + rest[0];
      } else {
        assert Join(rest, [sep]) == rest[0] + [sep] + Join(rest[1..], [sep]);
        assert s == [s[0]] + rest[0] + [sep] + Join(rest[1..], [sep]);
      }
    }
  }

  /** `keys.reduce((current, key) => current?.[key], v)`. */
  function LookupKeys(v: Value, keys: seq<string>): Value
    decreases |keys|
  {
    if keys == [] then v else LookupKeys(Get(v, keys[0]), keys[1..])
  }

  /** `getFieldValue(obj, path)`: follow the dot-separated path; total, never raises. */
  function GetPath(v: Value, path: string): Value {
    LookupKeys(v, Split(path, '.'))
  }

  /** A path without dots is a single property access. */
  lemma SingleKeyPath(v: Value, key: string)
    requires '.' !in key
    ensures GetPath(v, key) == Get(v, key)
  {
    SplitWithoutSeparator(key, '.');
    assert [key][1..] == [];
    assert LookupKeys(v, [key]) == LookupKeys(Get(v, key), []);
  }

  /** Looking up a concatenation of key paths is looking up one after the other. */
  lemma {:induction false} LookupKeysAppend(v: Value, a: seq<string>, b: seq<string>)
    ensures LookupKeys(v, a + b) == LookupKeys(LookupKeys(v, a), b)
    decreases |a|
  {
    if a == [] {
      assert a + b == b;
    } else {
      assert (a + b)[0] == a[0];
      assert (a + b)[1..] == a[1..] + b;
      LookupKeysAppend(Get(v, a[0]), a[1..], b);
    }
  }

  /** Once a lookup reaches `undefined` or `null`, every further key gives `undefined`. */
  lemma {:induction false} LookupFromNullish(v: Value, keys: seq<string>)
    requires v.Absent? || v.Null?
    requires keys != []
    ensures LookupKeys(v, keys) == Absent
    decreases |keys|
  {
    if |keys| > 1 {
      LookupFromNullish(Absent, keys[1..]);
    }
  }

  /** A dot path whose i-th key is missing from the object reached so far resolves
      to `undefined`, however many keys follow: the lookup never raises. */
  lemma MissingIntermediateKey(v: Value, keys: seq<string>, i: nat)
    requires i < |keys|
    requires LookupKeys(v, keys[..i]).Obj?
    requires keys[i] !in LookupKeys(v, keys[..i]).fields
    ensures LookupKeys(v, keys) == Absent
  {
    assert keys == keys[..i] + keys[i..];
    LookupKeysAppend(v, keys[..i], keys[i..]);
    var mid := LookupKeys(v, keys[..i]);
    if i + 1 < |keys| {
      LookupFromNullish(Get(mid, keys[i]), keys[i + 1..]);
    }
  }
}

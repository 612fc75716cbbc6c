/** The few JavaScript built-ins the core relies on: truthiness of an optional
    string, String.prototype.startsWith / trim / substring / split(c)[0] /
    toLowerCase, Array.prototype.find / join, Promise.all and String(n).
    A `string` here is a sequence of Unicode scalar values. JavaScript strings
    are sequences of UTF-16 code units; where the core counts those units
    (`substring`), the text is first encoded with EncodeUtf16. */
module JsBuiltins {

  /** A value that may be `undefined` or `null`. */
  datatype Option<+T> = None | Some(value: T)

  /** The outcome of a call that may throw; `message` is the exception's message. */
  datatype Result<+T> = Ok(value: T) | Err(message: string)

  /** `x` is truthy when it is a non-empty string (`undefined`, `null` and '' are falsy). */
  predicate Truthy(x: Option<string>) {
    x.Some? && x.value != ""
  }

  /** `x || d` for an optional string. */
  function OrElse(x: Option<string>, d: string): string {
    if Truthy(x) then x.value else d
  }

  /** The value under `key` in an object used as a dictionary, if it is an own property. */
  function Lookup(m: map<string, string>, key: string): Option<string> {
    if key in m then Some(m[key]) else None
  }

  function Min(a: int, b: int): int { if a <= b then a else b }

  function Max(a: int, b: int): int { if a >= b then a else b }

  /** `s.startsWith(p)`: a raw code-unit prefix test. */
  predicate StartsWith(s: string, p: string) {
    |p| <= |s| && s[..|p|] == p
  }

  /** `s.substring(0, n)` for n >= 0, on the units `s` is made of. */
  function Prefix<T>(s: seq<T>, n: nat): (r: seq<T>)
    ensures |r| == Min(n, |s|)
    ensures r == s[..|r|]
  {
    if |s| <= n then s else s[..n]
  }

  /** A UTF-16 code unit, the unit JavaScript string lengths and indices count. */
  newtype CodeUnit = x: int | 0 <= x < 0x1_0000

  type Utf16 = seq<CodeUnit>

  predicate IsHighSurrogate(u: CodeUnit) {
    0xD800 <= u <= 0xDBFF
  }

  /** The UTF-16 encoding of one scalar value: itself below U+10000, otherwise
      a high surrogate followed by a low one. */
  function EncodeChar(c: char): (r: Utf16)
    ensures c as int < 0x1_0000 ==> r == [c as int as CodeUnit]
    ensures c as int >= 0x1_0000 ==> |r| == 2 && IsHighSurrogate(r[0]) && 0xDC00 <= r[1] <= 0xDFFF
  {
    var n := c as int;
    if n < 0x1_0000 then [n as CodeUnit]
    else [(0xD800 + (n - 0x1_0000) / 0x400) as CodeUnit, (0xDC00 + (n - 0x1_0000) % 0x400) as CodeUnit]
  }

  /** The JavaScript string holding the scalar values of `s`. */
  function EncodeUtf16(s: string): (r: Utf16)
    ensures |r| >= |s|
  {
    if s == [] then [] else EncodeChar(s[0]) + EncodeUtf16(s[1..])
  }

  /** Encoding distributes over concatenation. */
  lemma {:induction false} EncodeUtf16Append(a: string, b: string)
    ensures EncodeUtf16(a + b) == EncodeUtf16(a) + EncodeUtf16(b)
  {
    if a == [] {
      assert a + b == b;
    } else {
      assert (a + b)[0] == a[0] && (a + b)[1..] == a[1..] + b;
      EncodeUtf16Append(a[1..], b);
      calc {
        EncodeUtf16(a + b);
        EncodeChar(a[0]) + EncodeUtf16(a[1..] + b);
        EncodeChar(a[0]) + (EncodeUtf16(a[1..]) + EncodeUtf16(b));
        (EncodeChar(a[0]) + EncodeUtf16(a[1..])) + EncodeUtf16(b);
      }
    }
  }

  /** Text made only of characters outside the Basic Multilingual Plane takes
      two code units per character. */
  lemma {:induction false} AstralLength(s: string)
    requires forall i :: 0 <= i < |s| ==> s[i] as int >= 0x1_0000
    ensures |EncodeUtf16(s)| == 2 * |s|
  {
    if s != [] {
      AstralLength(s[1..]);
    }
  }

  /** The first element satisfying `p`, as `Array.prototype.findIndex` (None for -1). */
  function FindFirst<T>(s: seq<T>, p: T -> bool): (r: Option<nat>)
    ensures r.Some? ==> r.value < |s| && p(s[r.value])
    ensures r.Some? ==> forall j :: 0 <= j < r.value ==> !p(s[j])
    ensures r.None? ==> forall j :: 0 <= j < |s| ==> !p(s[j])
  {
    if s == [] then None
    else if p(s[0]) then Some(0)
    else match FindFirst(s[1..], p)
      case None => None
      case Some(k) => Some(k + 1)
  }

  /** `Promise.all(xs.map(f))`: every result in order, or the first failure. */
  function AllOk<A, B>(xs: seq<A>, f: A -> Result<B>): (r: Result<seq<B>>)
    ensures r.Ok? <==> forall i :: 0 <= i < |xs| ==> f(xs[i]).Ok?
    ensures r.Ok? ==> |r.value| == |xs| && forall i :: 0 <= i < |xs| ==> f(xs[i]) == Ok(r.value[i])
  {
    if xs == [] then Ok([])
    else
      assert forall i :: 1 <= i < |xs| ==> xs[1..][i - 1] == xs[i];
      match f(xs[0])
      case Err(m) => Err(m)
      case Ok(y) =>
        match AllOk(xs[1..], f)
        case Err(m) => Err(m)
        case Ok(ys) => Ok([y] + ys)
  }

  /** The code units JavaScript's `trim` removes: WhiteSpace and LineTerminator
      of ECMA-262 (tab, vertical tab, form feed, space, no-break space, byte
      order mark, the other space separators of category Zs, line feed,
      carriage return, line and paragraph separators). */
  predicate IsJsSpace(c: char) {
    var n := c as int;
    n == 0x09 || n == 0x0A || n == 0x0B || n == 0x0C || n == 0x0D || n == 0x20 ||
    n == 0xA0 || n == 0x1680 || (0x2000 <= n <= 0x200A) || n == 0x2028 || n == 0x2029 ||
    n == 0x202F || n == 0x205F || n == 0x3000 || n == 0xFEFF
  }

  /** `s.trimStart()`: drops the leading white space and nothing else. */
  function TrimStart(s: string): (r: string)
    ensures |r| <= |s| && r == s[|s| - |r|..]
    ensures forall k :: 0 <= k < |s| - |r| ==> IsJsSpace(s[k])
    ensures r == [] || !IsJsSpace(r[0])
  {
    if |s| > 0 && IsJsSpace(s[0]) then TrimStart(s[1..]) else s
  }

  /** `s.trimEnd()`: drops the trailing white space and nothing else. */
  function TrimEnd(s: string): (r: string)
    ensures |r| <= |s| && r == s[..|r|]
    ensures forall k :: |r| <= k < |s| ==> IsJsSpace(s[k])
    ensures r == [] || !IsJsSpace(r[|r| - 1])
  {
    if |s| > 0 && IsJsSpace(s[|s| - 1]) then TrimEnd(s[..|s| - 1]) else s
  }

  /** `s.trim()`. */
  function Trim(s: string): (r: string)
    ensures r == [] || (!IsJsSpace(r[0]) && !IsJsSpace(r[|r| - 1]))
    ensures |r| <= |TrimStart(s)| && r == s[|s| - |TrimStart(s)|..][..|r|]
  {
    TrimEnd(TrimStart(s))
  }

  /** Trimming keeps a text's characters only: a character absent before is absent after. */
  lemma TrimKeepsAbsent(s: string, c: char)
    requires c !in s
    ensures c !in Trim(s) && |Trim(s)| <= |s|
  {
    var t := TrimStart(s);
    var k := |s| - |t|;
    var r := TrimEnd(t);
    assert t == s[k..] && r == t[..|r|];
    forall i | 0 <= i < |r|
      ensures r[i] != c
    {
      assert r[i] == t[i];
      assert t[i] == s[k + i];
    }
  }

  /** Trimming twice is trimming once. */
  lemma TrimIdempotent(s: string)
    ensures Trim(Trim(s)) == Trim(s)
  {
    var r := Trim(s);
    assert TrimStart(r) == r;
    assert TrimEnd(r) == r;
  }

  /** `s.split(c)[0]`: the text before the first occurrence of `c`, or all of `s`. */
  function BeforeFirst(s: string, c: char): (r: string)
    ensures |r| <= |s| && r == s[..|r|]
    ensures c !in r
    ensures |r| < |s| ==> s[|r|] == c
  {
    if s == [] || s[0] == c then [] else [s[0]] + BeforeFirst(s[1..], c)
  }

  /** The text before the first `c` is everything up to that `c`, or all of it. */
  lemma BeforeFirstSplit(a: string, c: char, b: string)
    requires c !in a
    ensures BeforeFirst(a + [c] + b, c) == a
    ensures BeforeFirst(a, c) == a
  {
    var s := a + [c] + b;
    var r := BeforeFirst(s, c);
    assert forall i :: 0 <= i < |a| ==> s[i] == a[i] && a[i] in a;
    assert s[|a|] == c;
    assert r == a;
    var r' := BeforeFirst(a, c);
    assert forall i :: 0 <= i < |a| ==> a[i] in a;
  }

  /** `c.toLowerCase()` restricted to the ASCII letters. */
  function LowerChar(c: char): char {
    if 'A' <= c <= 'Z' then (c as int + 32) as char else c
  }

  /** `s.toLowerCase()` on ASCII text. */
  function ToLowerAscii(s: string): (r: string)
    ensures |r| == |s|
    ensures forall i :: 0 <= i < |s| ==> r[i] == LowerChar(s[i])
  {
    seq(|s|, i requires 0 <= i < |s| => LowerChar(s[i]))
  }

  /** `xs.join(sep)`. */
  function Join(xs: seq<string>, sep: string): string {
    if |xs| == 0 then ""
    else if |xs| == 1 then xs[0]
    else xs[0] + sep + Join(xs[1..], sep)
  }

  /** `String(n)` for a natural number: its decimal digits. */
  function NatToString(n: nat): (r: string)
    ensures |r| >= 1
    ensures forall i :: 0 <= i < |r| ==> '0' <= r[i] <= '9'
  {
    var d := ['0' + (n % 10) as char];
    if n < 10 then d else NatToString(n / 10) + d
  }
}

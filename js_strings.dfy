/**
 * The JavaScript string and number primitives that the client relies on, written over
 * `seq<char>` (a sequence of Unicode code points): `indexOf`, `split` with a one-character
 * separator, `slice` with its relative indices, `trim`, `toLowerCase` (ASCII letters only),
 * `Number()` on decimal integer text, and the UTF-16 length that `String.prototype.length` reports.
 */
module JsStrings {
  import opened Wrappers

  /** The characters that `\s` matches in a JS regular expression and that `trim()` removes. */
  predicate IsJsWhitespace(c: char) {
    c == '\t' || c == '\n' || c == '\U{B}' || c == '\U{C}' || c == '\r' || c == ' '
    || c == '\U{A0}' || c == '\U{1680}' || ('\U{2000}' <= c <= '\U{200A}')
    || c == '\U{2028}' || c == '\U{2029}' || c == '\U{202F}' || c == '\U{205F}'
    || c == '\U{3000}' || c == '\U{FEFF}'
  }

  /** JavaScript truthiness of a string that may be `undefined`: neither `undefined` nor empty. */
  predicate IsTruthy(v: Option<string>) {
    v.Some? && |v.value| > 0
  }

  predicate StartsWith(s: string, p: string) {
    |p| <= |s| && s[..|p|] == p
  }

  predicate EndsWith(s: string, p: string) {
    |p| <= |s| && s[|s| - |p|..] == p
  }

  /** `s.indexOf(c)`: the first position holding `c`, or -1 when there is none. */
  function IndexOf(s: string, c: char): (r: int)
    ensures -1 <= r < |s|
    ensures r == -1 <==> c !in s
    ensures 0 <= r ==> s[r] == c && c !in s[..r]
  {
    if |s| == 0 then -1
    else if s[0] == c then 0
    else
      var r := IndexOf(s[1..], c);
      if r == -1 then -1
      else
        assert s[..r + 1] == [s[0]] + s[1..][..r];
        r + 1
  }

  /**
   * `s.split(c)` for a one-character separator: the pieces between separators, in order,
   * so `''.split(c)` is `['']` and a separator at either end yields an empty piece there.
   */
  function Split(s: string, c: char): (parts: seq<string>)
    ensures |parts| >= 1
    decreases |s|
  {
    var i := IndexOf(s, c);
    if i == -1 then [s] else [s[..i]] + Split(s[i + 1..], c)
  }

  /** `parts.join(sep)`. */
  function JoinWith(parts: seq<string>, sep: string): string
  {
    if |parts| == 0 then ""
    else if |parts| == 1 then parts[0]
    else parts[0] + sep + JoinWith(parts[1..], sep)
  }

  /** Joining a piece in front of a non-empty list puts one separator after it. */
  lemma JoinWithCons(head: string, tail: seq<string>, sep: string)
    requires |tail| >= 1
    ensures JoinWith([head] + tail, sep) == head + sep + JoinWith(tail, sep)
  {
    assert ([head] + tail)[0] == head && ([head] + tail)[1..] == tail;
  }

  /** A text is what comes before a position, the character there, and what follows. */
  lemma SplitAround<T>(s: seq<T>, i: nat)
    requires i < |s|
    ensures s == s[..i] + [s[i]] + s[i + 1..]
  {
  }

  /** Joining the pieces of a split with the separator gives back the original text. */
  lemma {:induction false} SplitJoin(s: string, c: char)
    ensures JoinWith(Split(s, c), [c]) == s
    decreases |s|
  {
    var i := IndexOf(s, c);
    if i != -1 {
      var rest := s[i + 1..];
      SplitJoin(rest, c);
      assert Split(s, c) == [s[..i]] + Split(rest, c);
      JoinWithCons(s[..i], Split(rest, c), [c]);
      SplitAround(s, i);
    }
  }

  /** No piece of a split contains the separator. */
  lemma {:induction false} SplitPieces(s: string, c: char)
    ensures forall k | 0 <= k < |Split(s, c)| :: c !in Split(s, c)[k]
    decreases |s|
  {
    var i := IndexOf(s, c);
    if i != -1 {
      SplitPieces(s[i + 1..], c);
    }
  }

  /** The first piece of a split is the text before the first separator. */
  lemma SplitHead(s: string, c: char)
    ensures c in s ==> |Split(s, c)| >= 2 && Split(s, c)[0] == s[..IndexOf(s, c)]
    ensures c !in s ==> Split(s, c) == [s]
  {
  }

  /** The first separator of `a + [c] + b`, when `a` has none, is the one after `a`. */
  lemma IndexOfFirst(a: string, c: char, b: string)
    requires c !in a
    ensures IndexOf(a + [c] + b, c) == |a|
  {
    var s := a + [c] + b;
    assert s[..|a|] == a && s[|a|] == c;
  }

  /** Splitting text whose first separator follows `a` gives `a`, then the pieces of the rest. */
  lemma SplitAtFirst(a: string, c: char, b: string)
    requires c !in a
    ensures Split(a + [c] + b, c) == [a] + Split(b, c)
  {
    var s := a + [c] + b;
    var r := IndexOf(s, c);
    assert s[..|a|] == a && s[|a|] == c && s[|a| + 1..] == b;
    assert r == |a|;
  }

  /** The text before the first space, as `s.split(' ', 1)[0]` gives it. */
  function FirstToken(s: string): string {
    Split(s, ' ')[0]
  }

  /** `parts[i]`, which is `undefined` past the end. */
  function Nth(parts: seq<string>, i: nat): Option<string> {
    if i < |parts| then Some(parts[i]) else None
  }

  /** The position a JS `slice` argument selects: a negative one counts from the end, and
      the result is clamped to `[0, len]`. */
  function RelIndex(i: int, len: nat): (r: nat)
    ensures r <= len
  {
    if i < 0 then (if len + i < 0 then 0 else len + i)
    else if i > len then len
    else i
  }

  /** `s.slice(start, end)` (strings and arrays alike). */
  function JsSlice<T>(s: seq<T>, start: int, end: int): seq<T> {
    var a, b := RelIndex(start, |s|), RelIndex(end, |s|);
    if a < b then s[a..b] else []
  }

  /** `s.slice(start)`. */
  function JsSliceFrom<T>(s: seq<T>, start: int): seq<T> {
    s[RelIndex(start, |s|)..]
  }

  function TrimStart(s: string): string
  {
    if |s| > 0 && IsJsWhitespace(s[0]) then TrimStart(s[1..]) else s
  }

  function TrimEnd(s: string): string
  {
    if |s| > 0 && IsJsWhitespace(s[|s| - 1]) then TrimEnd(s[..|s| - 1]) else s
  }

  /** `s.trim()`. */
  function Trim(s: string): string {
    TrimEnd(TrimStart(s))
  }

  /** A text that neither starts nor ends with whitespace is its own trim. */
  lemma TrimUnchanged(s: string)
    requires |s| > 0 ==> !IsJsWhitespace(s[0]) && !IsJsWhitespace(s[|s| - 1])
    ensures Trim(s) == s
  {
  }

  /** The result of a trim neither starts nor ends with whitespace. */
  lemma {:induction false} TrimmedEnds(s: string)
    ensures |Trim(s)| > 0 ==> !IsJsWhitespace(Trim(s)[0]) && !IsJsWhitespace(Trim(s)[|Trim(s)| - 1])
  {
    TrimStartEnds(s);
    TrimEndEnds(TrimStart(s));
  }

  lemma {:induction false} TrimStartEnds(s: string)
    ensures |TrimStart(s)| > 0 ==> !IsJsWhitespace(TrimStart(s)[0])
    ensures |TrimStart(s)| <= |s| && TrimStart(s) == s[|s| - |TrimStart(s)|..]
    decreases |s|
  {
    if |s| > 0 && IsJsWhitespace(s[0]) {
      TrimStartEnds(s[1..]);
    }
  }

  lemma {:induction false} TrimEndEnds(s: string)
    ensures |TrimEnd(s)| > 0 ==> !IsJsWhitespace(TrimEnd(s)[|TrimEnd(s)| - 1])
    ensures |TrimEnd(s)| <= |s| && TrimEnd(s) == s[..|TrimEnd(s)|]
    ensures |s| > 0 && !IsJsWhitespace(s[0]) ==> |TrimEnd(s)| > 0 && TrimEnd(s)[0] == s[0]
    decreases |s|
  {
    if |s| > 0 && IsJsWhitespace(s[|s| - 1]) {
      TrimEndEnds(s[..|s| - 1]);
    }
  }

  /** `c.toLowerCase()` for the ASCII letters; every other character is left as it is. */
  function ToLowerChar(c: char): char {
    if 'A' <= c <= 'Z' then (c as int + 32) as char else c
  }

  function ToLower(s: string): string {
    seq(|s|, i requires 0 <= i < |s| => ToLowerChar(s[i]))
  }

  predicate IsUpper(c: char) {
    'A' <= c <= 'Z'
  }

  /** Lowercasing changes exactly the upper-case letters, so text without them is unchanged. */
  lemma ToLowerUnchanged(s: string)
    requires forall i | 0 <= i < |s| :: !IsUpper(s[i])
    ensures ToLower(s) == s
  {
  }

  /** The number of UTF-16 code units in `s`: what `s.length` reports in JavaScript. */
  function Utf16Length(s: string): nat {
    if |s| == 0 then 0
    else Utf16Length(s[..|s| - 1]) + (if s[|s| - 1] as int > 0xFFFF then 2 else 1)
  }

  /** A JS number, restricted to the integers and NaN (the client only ever parses integer text). */
  datatype JsNumber = Finite(value: int) | NaN {
    /** `n + 1`: NaN stays NaN. */
    function PlusOne(): JsNumber {
      match this
      case Finite(v) => Finite(v + 1)
      case NaN => NaN
    }

    /** How `slice` reads the number as an index: NaN counts as 0. */
    function AsSliceIndex(): int {
      match this
      case Finite(v) => v
      case NaN => 0
    }
  }

  predicate IsDigit(c: char) {
    '0' <= c <= '9'
  }

  predicate AllDigits(s: string) {
    forall i | 0 <= i < |s| :: IsDigit(s[i])
  }

  /** The value of a run of decimal digits, read left to right. */
  function DigitsValue(s: string): nat
    requires AllDigits(s)
  {
    if |s| == 0 then 0
    else DigitsValue(s[..|s| - 1]) * 10 + (s[|s| - 1] as int - '0' as int)
  }

  /** `Number(s)`: whitespace around the text is ignored and blank text is 0; an optionally signed
      run of decimal digits is its value; any other text is NaN. */
  function ParseNumber(s: string): JsNumber {
    var t := Trim(s);
    if |t| == 0 then Finite(0)
    else if AllDigits(t) then Finite(DigitsValue(t))
    else if |t| > 1 && (t[0] == '-' || t[0] == '+') && AllDigits(t[1..]) then
      var d: int := DigitsValue(t[1..]);
      Finite(if t[0] == '-' then -d else d)
    else NaN
  }

  /** `Number(v)` where `v` may be `undefined` (which gives NaN). */
  function NumberOf(v: Option<string>): JsNumber {
    match v
    case None => NaN
    case Some(s) => ParseNumber(s)
  }

  function DigitChar(d: nat): char
    requires d < 10
  {
    ('0' as int + d) as char
  }

  /** The decimal text of a natural number, most significant digit first, with no leading zero. */
  function NatToString(n: nat): string
    decreases n
  {
    if n < 10 then [DigitChar(n)] else NatToString(n / 10) + [DigitChar(n % 10)]
  }

  /** `${n}` for an integer `n`. */
  function IntToString(n: int): string {
    if n < 0 then "-" + NatToString(-n) else NatToString(n)
  }

  lemma {:induction false} NatToStringDigits(n: nat)
    ensures |NatToString(n)| > 0 && AllDigits(NatToString(n))
    ensures DigitsValue(NatToString(n)) == n
    decreases n
  {
    if n >= 10 {
      NatToStringDigits(n / 10);
      var s := NatToString(n);
      assert s[..|s| - 1] == NatToString(n / 10);
    }
  }

  /** The decimal text of a natural number holds no character other than digits. */
  lemma NatToStringHasOnly(n: nat, c: char)
    requires !IsDigit(c)
    ensures c !in NatToString(n)
  {
    NatToStringDigits(n);
  }

  /** `Number(String(n))` is `n` for every integer: parsing inverts printing. */
  lemma {:induction false} ParseNumberOfIntToString(n: int)
    ensures ParseNumber(IntToString(n)) == Finite(n)
  {
    var m: nat := if n < 0 then -n else n;
    NatToStringDigits(m);
    var s := IntToString(n);
    assert |s| > 0 && !IsJsWhitespace(s[0]) && !IsJsWhitespace(s[|s| - 1]);
    TrimUnchanged(s);
    if n < 0 {
      assert s[1..] == NatToString(m);
      assert !AllDigits(s) by { assert !IsDigit(s[0]); }
    }
  }

  /** The same, for a natural number's decimal text. */
  lemma ParseNumberOfNatToString(n: nat)
    ensures ParseNumber(NatToString(n)) == Finite(n)
  {
    ParseNumberOfIntToString(n);
  }
}

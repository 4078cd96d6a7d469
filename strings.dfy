/**
 * The text primitives the engine borrows from its libraries: ASCII case
 * folding (`Poco::icompare`), whitespace trimming (`Poco::trim`), comma
 * tokenising (`Poco::StringTokenizer` with TOK_TRIM and TOK_IGNORE_EMPTY),
 * decimal rendering (`std::to_string`) and `Poco::NumberParser::tryParseUnsigned64`.
 */
module Strings {
  import opened Wrappers

  const UINT64_MAX: nat := 0xFFFF_FFFF_FFFF_FFFF

  /** The C++ `uint64_t`. */
  type UInt64 = x: nat | x <= UINT64_MAX

  // ---------------------------------------------------------------- case folding

  function ToLower(c: char): char
  {
    if 'A' <= c <= 'Z' then (c as int + 32) as char else c
  }

  function Lower(s: string): (r: string)
    ensures |r| == |s|
    ensures forall i :: 0 <= i < |s| ==> r[i] == ToLower(s[i])
  {
    if s == [] then [] else [ToLower(s[0])] + Lower(s[1..])
  }

  /** `Poco::icompare(a, b) == 0`: equality after ASCII lower-casing. */
  predicate IEquals(a: string, b: string)
  {
    Lower(a) == Lower(b)
  }

  /**
   * `Poco::icompare(s, c) == 0` against a constant `c` written in lower
   * case: `s` lower-cased is `c`.
   */
  predicate IEqualsLowerCase(s: string, c: string)
  {
    Lower(s) == c
  }

  /** For a lower-case constant the two comparisons agree. */
  lemma IEqualsLowerCaseMeaning(s: string, c: string)
    requires Lower(c) == c
    ensures IEqualsLowerCase(s, c) <==> IEquals(s, c)
  {
  }

  predicate StartsWith(s: string, prefix: string)
  {
    |prefix| <= |s| && s[..|prefix|] == prefix
  }

  predicate EndsWith(s: string, suffix: string)
  {
    |suffix| <= |s| && s[|s| - |suffix|..] == suffix
  }

  // ---------------------------------------------------------------- replacing

  /** `Poco::replaceInPlace` for a one-character pattern: every `c` becomes `replacement`, everything else stays in order. */
  function Replace(s: string, c: char, replacement: string): (r: string)
    ensures forall x :: x in r ==> (x in s && x != c) || x in replacement
    ensures c !in s ==> r == s
  {
    if s == [] then []
    else (if s[0] == c then replacement else [s[0]]) + Replace(s[1..], c, replacement)
  }

  // ---------------------------------------------------------------- trimming

  /** The characters `std::isspace` accepts in the C locale. */
  predicate IsSpace(c: char)
  {
    c == ' ' || c == '\t' || c == '\n' || c == '\r' || c == '\U{C}' || c == '\U{B}'
  }

  function TrimLeft(s: string): (r: string)
    ensures r == [] || !IsSpace(r[0])
    ensures |r| <= |s| && r == s[|s| - |r|..]
    ensures forall i :: 0 <= i < |s| - |r| ==> IsSpace(s[i])
  {
    if s != [] && IsSpace(s[0]) then TrimLeft(s[1..]) else s
  }

  function TrimRight(s: string): (r: string)
    ensures r == [] || !IsSpace(r[|r| - 1])
    ensures |r| <= |s| && r == s[..|r|]
    ensures forall i :: |r| <= i < |s| ==> IsSpace(s[i])
  {
    if s != [] && IsSpace(s[|s| - 1]) then TrimRight(s[..|s| - 1]) else s
  }

  /** `Poco::trim`: leading and trailing white space removed. */
  function Trim(s: string): string
  {
    TrimRight(TrimLeft(s))
  }

  lemma TrimmedHasNoOuterSpace(s: string)
    ensures Trim(s) == [] || (!IsSpace(Trim(s)[0]) && !IsSpace(Trim(s)[|Trim(s)| - 1]))
  {
    var l := TrimLeft(s);
    var r := TrimRight(l);
    assert Trim(s) == r;
    if r != [] {
      assert l != [] && !IsSpace(l[0]);
      assert r == l[..|r|];
      assert r[0] == l[0];
    }
  }

  lemma TrimUnpadded(s: string)
    requires s != [] && !IsSpace(s[0]) && !IsSpace(s[|s| - 1])
    ensures Trim(s) == s
  {
    assert TrimLeft(s) == s;
  }

  // ---------------------------------------------------------------- delimiter splitting

  /**
   * The delimiter-free segments of `s` that follow the partial segment `cur`,
   * leaving out the empty ones: what a `std::getline` loop that skips empty
   * items produces.
   */
  function SplitFrom(s: string, d: char, cur: string): seq<string>
    decreases |s|
  {
    if s == [] then
      (if cur == [] then [] else [cur])
    else if s[0] == d then
      (if cur == [] then [] else [cur]) + SplitFrom(s[1..], d, [])
    else
      SplitFrom(s[1..], d, cur + [s[0]])
  }

  /** The non-empty segments of `s` between occurrences of `d`, in order. */
  function Split(s: string, d: char): seq<string>
  {
    SplitFrom(s, d, [])
  }

  lemma {:induction false} SplitFromSegments(s: string, d: char, cur: string)
    requires d !in cur
    ensures forall k :: 0 <= k < |SplitFrom(s, d, cur)| ==>
      SplitFrom(s, d, cur)[k] != [] && d !in SplitFrom(s, d, cur)[k]
  {
    if s == [] {
    } else if s[0] == d {
      SplitFromSegments(s[1..], d, []);
    } else {
      SplitFromSegments(s[1..], d, cur + [s[0]]);
    }
  }

  /** `Poco::StringTokenizer(s, [d], TOK_TRIM | TOK_IGNORE_EMPTY)`: trimmed, non-empty tokens. */
  function TokensOf(pieces: seq<string>): (r: seq<string>)
    ensures forall k :: 0 <= k < |r| ==> r[k] != []
  {
    if pieces == [] then []
    else if Trim(pieces[0]) == [] then TokensOf(pieces[1..])
    else [Trim(pieces[0])] + TokensOf(pieces[1..])
  }

  function Tokenize(s: string, d: char): seq<string>
  {
    TokensOf(Split(s, d))
  }

  // ---------------------------------------------------------------- decimal numbers

  predicate IsDigit(c: char)
  {
    '0' <= c <= '9'
  }

  function DigitChar(n: nat): (c: char)
    requires n < 10
    ensures IsDigit(c)
  {
    (48 + n) as char
  }

  function DigitValue(c: char): (n: nat)
    requires IsDigit(c)
    ensures n < 10 && DigitChar(n) == c
  {
    c as int - 48
  }

  /** `std::to_string` of an unsigned number. */
  function NatToString(n: nat): (r: string)
    ensures r != []
    ensures forall i :: 0 <= i < |r| ==> IsDigit(r[i])
  {
    if n < 10 then [DigitChar(n)] else NatToString(n / 10) + [DigitChar(n % 10)]
  }

  predicate IsDigits(s: string)
  {
    s != [] && forall i :: 0 <= i < |s| ==> IsDigit(s[i])
  }

  /** The value of a string of decimal digits. */
  function DigitsValue(s: string): nat
    requires forall i :: 0 <= i < |s| ==> IsDigit(s[i])
  {
    if s == [] then 0 else DigitsValue(s[..|s| - 1]) * 10 + DigitValue(s[|s| - 1])
  }

  /** `Poco::NumberParser::tryParseUnsigned64`: decimal digits whose value fits in 64 bits. */
  function TryParseUnsigned64(s: string): (r: Option<UInt64>)
    ensures r.Some? <==> IsDigits(s) && DigitsValue(s) <= UINT64_MAX
    ensures r.Some? ==> r.value == DigitsValue(s)
  {
    if IsDigits(s) && DigitsValue(s) <= UINT64_MAX then Some(DigitsValue(s)) else None
  }

  lemma {:induction false} DigitsValueOfNatToString(n: nat)
    ensures DigitsValue(NatToString(n)) == n
  {
    if n >= 10 {
      var s := NatToString(n / 10) + [DigitChar(n % 10)];
      assert s[..|s| - 1] == NatToString(n / 10);
      DigitsValueOfNatToString(n / 10);
    }
  }

  /** Parsing the decimal rendering of a 64-bit number gives the number back. */
  lemma ParseNatToString(n: UInt64)
    ensures TryParseUnsigned64(NatToString(n)) == Some(n)
  {
    DigitsValueOfNatToString(n);
  }

  lemma NatToStringInjective(a: nat, b: nat)
    requires NatToString(a) == NatToString(b)
    ensures a == b
  {
    DigitsValueOfNatToString(a);
    DigitsValueOfNatToString(b);
  }
}

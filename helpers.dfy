/** `Helpers::splitString`, `Helpers::joinString` and `Helpers::joinIDNumbers`. */
module Helpers {
  import opened Strings

  /** The reference definition of `joinString`: the elements with `d` between neighbours. */
  function Join(xs: seq<string>, d: string): string
  {
    if xs == [] then "" else if |xs| == 1 then xs[0] else xs[0] + d + Join(xs[1..], d)
  }

  /** The decimal rendering of each id, in order. */
  function Decimals(ids: seq<UInt64>): (r: seq<string>)
    ensures |r| == |ids|
    ensures forall k :: 0 <= k < |ids| ==> r[k] == NatToString(ids[k])
  {
    if ids == [] then [] else [NatToString(ids[0])] + Decimals(ids[1..])
  }

  /**
   * `splitString`: a `std::getline` loop over `source` that appends every
   * non-empty item read up to the next delimiter.
   */
  method SplitString(source: string, delimiter: char) returns (out: seq<string>)
    ensures out == Split(source, delimiter)
    ensures forall k :: 0 <= k < |out| ==> out[k] != [] && delimiter !in out[k]
  {
    out := [];
    var item: string := [];
    var i := 0;
    while i < |source|
      invariant 0 <= i <= |source|
      invariant out + SplitFrom(source[i..], delimiter, item) == Split(source, delimiter)
    {
      assert source[i..] == [source[i]] + source[i + 1..];
      if source[i] == delimiter {
        if item != [] {
          out := out + [item];
        }
        item := [];
      } else {
        item := item + [source[i]];
      }
      i := i + 1;
    }
    if item != [] {
      out := out + [item];
    }
    SplitFromSegments(source, delimiter, []);
  }

  /** `joinString`: every element but the last followed by the delimiter, then the last. */
  method JoinString(source: seq<string>, delimiter: string) returns (r: string)
    ensures r == Join(source, delimiter)
  {
    if |source| == 0 {
      return "";
    } else if |source| == 1 {
      return source[0];
    }
    r := "";
    var i := 0;
    while i < |source| - 1
      invariant 0 <= i <= |source| - 1
      invariant r + Join(source[i..], delimiter) == Join(source, delimiter)
    {
      var rest := Join(source[i + 1..], delimiter);
      assert source[i..][1..] == source[i + 1..];
      assert Join(source[i..], delimiter) == source[i] + delimiter + rest;
      assert r + (source[i] + delimiter + rest) == (r + source[i] + delimiter) + rest;
      r := r + source[i] + delimiter;
      i := i + 1;
    }
    assert source[i..] == [source[|source| - 1]];
    r := r + source[|source| - 1];
  }

  /**
   * `joinIDNumbers`: the same join as `joinString`, streaming each id's
   * decimal rendering.
   */
  method JoinIDNumbers(source: seq<UInt64>, delimiter: string) returns (r: string)
    ensures r == Join(Decimals(source), delimiter)
  {
    r := JoinString(Decimals(source), delimiter);
  }

  // ---------------------------------------------------------------- properties

  /** The number of occurrences of `c` in `s`. */
  function Occurrences(s: string, c: char): nat
  {
    multiset(s)[c]
  }

  /** Joining n >= 1 delimiter-free elements with a one-character delimiter puts exactly n - 1 delimiters in. */
  lemma {:induction false} JoinDelimiterCount(xs: seq<string>, c: char)
    requires xs != []
    requires forall k :: 0 <= k < |xs| ==> c !in xs[k]
    ensures Occurrences(Join(xs, [c]), c) == |xs| - 1
  {
    if |xs| > 1 {
      JoinDelimiterCount(xs[1..], c);
      assert multiset(xs[0] + [c] + Join(xs[1..], [c])) == multiset(xs[0]) + multiset{c} + multiset(Join(xs[1..], [c]));
      assert multiset(xs[0])[c] == 0;
    } else {
      assert multiset(xs[0])[c] == 0;
    }
  }

  lemma {:induction false} SplitFromAppend(x: string, t: string, d: char, cur: string)
    requires d !in x
    ensures SplitFrom(x + t, d, cur) == SplitFrom(t, d, cur + x)
    decreases |x|
  {
    if x != [] {
      assert (x + t)[1..] == x[1..] + t;
      assert cur + [x[0]] + x[1..] == cur + x;
      SplitFromAppend(x[1..], t, d, cur + [x[0]]);
    } else {
      assert x + t == t && cur + x == cur;
    }
  }

  /** `splitString` undoes `joinString` when no element is empty or contains the delimiter. */
  lemma {:induction false} SplitJoin(xs: seq<string>, d: char)
    requires forall k :: 0 <= k < |xs| ==> xs[k] != [] && d !in xs[k]
    ensures Split(Join(xs, [d]), d) == xs
  {
    if |xs| == 1 {
      SplitFromAppend(xs[0], [], d, []);
      assert xs[0] + [] == xs[0] && [] + xs[0] == xs[0];
    } else if |xs| > 1 {
      var rest := Join(xs[1..], [d]);
      assert Join(xs, [d]) == xs[0] + ([d] + rest);
      SplitFromAppend(xs[0], [d] + rest, d, []);
      assert ([d] + rest)[1..] == rest;
      assert [] + xs[0] == xs[0];
      assert SplitFrom([d] + rest, d, xs[0]) == [xs[0]] + SplitFrom(rest, d, []);
      SplitJoin(xs[1..], d);
      assert xs == [xs[0]] + xs[1..];
    }
  }

  /** Tokenising keeps every token that is non-empty and free of surrounding white space. */
  lemma {:induction false} TokensOfTrimmed(xs: seq<string>)
    requires forall k :: 0 <= k < |xs| ==> xs[k] != [] && Trim(xs[k]) == xs[k]
    ensures TokensOf(xs) == xs
  {
    if xs != [] {
      var tail := xs[1..];
      assert forall k :: 0 <= k < |tail| ==> tail[k] == xs[k + 1];
      TokensOfTrimmed(tail);
      assert xs == [xs[0]] + tail;
    }
  }

  lemma {:induction false} DigitsTrimmed(s: string)
    requires IsDigits(s)
    ensures Trim(s) == s
  {
    assert !IsSpace(s[0]);
    assert TrimLeft(s) == s;
    assert !IsSpace(s[|s| - 1]);
  }

  /** Tokenising undoes joining when every element is non-empty, trimmed and free of the delimiter. */
  lemma TokenizeJoin(xs: seq<string>, d: char)
    requires forall k :: 0 <= k < |xs| ==> xs[k] != [] && d !in xs[k] && Trim(xs[k]) == xs[k]
    ensures Tokenize(Join(xs, [d]), d) == xs
  {
    SplitJoin(xs, d);
    TokensOfTrimmed(xs);
  }

  /** Tokenising the comma-joined decimal renderings gives the renderings back. */
  lemma TokenizeJoinedDecimals(ids: seq<UInt64>)
    ensures Tokenize(Join(Decimals(ids), ","), ',') == Decimals(ids)
  {
    var ds := Decimals(ids);
    forall k | 0 <= k < |ds| ensures ds[k] != [] && ',' !in ds[k] && Trim(ds[k]) == ds[k] {
      DigitsTrimmed(ds[k]);
    }
    TokenizeJoin(ds, ',');
  }
}

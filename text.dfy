/** Text the core produces: decimal rendering of integers as a JavaScript
    template literal writes them, and `key=value&key=value` query strings,
    each with the parser that takes it back. */
module Text {
  import opened Types

  /** `m || fallback` for an optional string: an absent or empty value
      gives the fallback. */
  function OrElse(m: Option<string>, fallback: string): string {
    if m.Some? && m.value != "" then m.value else fallback
  }

  predicate IsDigit(c: char) {
    '0' <= c <= '9'
  }

  predicate AllDigits(s: string) {
    forall i :: 0 <= i < |s| ==> IsDigit(s[i])
  }

  function DigitValue(c: char): (d: nat)
    requires IsDigit(c)
    ensures d < 10
  {
    (c as int) - ('0' as int)
  }

  function DigitChar(d: nat): (c: char)
    requires d < 10
    ensures IsDigit(c) && DigitValue(c) == d
  {
    (('0' as int) + d) as char
  }

  /** Decimal digits of `n`, most significant first, without leading zeros. */
  function ShowNat(n: nat): (s: string)
    ensures |s| >= 1 && AllDigits(s)
    ensures s[0] == '0' ==> n == 0
    decreases n
  {
    if n < 10 then [DigitChar(n)] else ShowNat(n / 10) + [DigitChar(n % 10)]
  }

  /** `${i}` for an integer `i`: a minus sign in front of the digits of a
      negative number. */
  function ShowInt(i: int): (s: string)
    ensures |s| >= 1
    ensures forall k :: 0 <= k < |s| ==> IsDigit(s[k]) || s[k] == '-'
  {
    if i < 0 then "-" + ShowNat(-i) else ShowNat(i)
  }

  function ParseNat(s: string): nat
    requires AllDigits(s)
  {
    if |s| == 0 then 0 else ParseNat(s[..|s| - 1]) * 10 + DigitValue(s[|s| - 1])
  }

  /** Reads back what ShowInt writes; anything else is None. */
  function ParseInt(s: string): Option<int> {
    if |s| >= 2 && s[0] == '-' && AllDigits(s[1..]) then Some(-(ParseNat(s[1..]) as int))
    else if |s| >= 1 && AllDigits(s) then Some(ParseNat(s))
    else None
  }

  lemma {:induction false} ParseShowNat(n: nat)
    ensures ParseNat(ShowNat(n)) == n
    decreases n
  {
    if n >= 10 {
      var s := ShowNat(n);
      assert s[..|s| - 1] == ShowNat(n / 10);
      ParseShowNat(n / 10);
    }
  }

  lemma ParseShowInt(i: int)
    ensures ParseInt(ShowInt(i)) == Some(i)
  {
    if i < 0 {
      ParseShowNat(-i);
      assert ShowInt(i)[1..] == ShowNat(-i);
    } else {
      ParseShowNat(i);
    }
  }

  /** Index of the first `c` in `s`, or `|s|` when there is none. */
  function FirstIndex(s: string, c: char): (i: nat)
    ensures i <= |s|
    ensures forall j :: 0 <= j < i ==> s[j] != c
    ensures i < |s| ==> s[i] == c
  {
    if |s| == 0 then 0 else if s[0] == c then 0 else 1 + FirstIndex(s[1..], c)
  }

  function Join(parts: seq<string>, sep: char): string {
    if |parts| == 0 then ""
    else if |parts| == 1 then parts[0]
    else parts[0] + [sep] + Join(parts[1..], sep)
  }

  /** The pieces of `s` between occurrences of `sep` (`String.prototype.split`). */
  function Split(s: string, sep: char): (parts: seq<string>)
    ensures |parts| >= 1
    decreases |s|
  {
    var i := FirstIndex(s, sep);
    if i == |s| then [s] else [s[..i]] + Split(s[i + 1..], sep)
  }

  lemma FirstIndexAfter(p: string, sep: char, rest: string)
    requires sep !in p
    ensures FirstIndex(p + [sep] + rest, sep) == |p|
  {
    var s := p + [sep] + rest;
    assert s[|p|] == sep;
    assert forall j :: 0 <= j < |p| ==> s[j] == p[j];
  }

  lemma {:induction false} SplitJoin(parts: seq<string>, sep: char)
    requires |parts| >= 1
    requires forall k :: 0 <= k < |parts| ==> sep !in parts[k]
    ensures Split(Join(parts, sep), sep) == parts
    decreases |parts|
  {
    if |parts| == 1 {
    } else {
      var p, rest := parts[0], Join(parts[1..], sep);
      var s := p + [sep] + rest;
      FirstIndexAfter(p, sep, rest);
      assert s[..|p|] == p;
      assert s[|p| + 1..] == rest;
      SplitJoin(parts[1..], sep);
      assert parts == [p] + parts[1..];
    }
  }

  /** A key or value that survives `key=value&...` encoding unchanged. */
  predicate QuerySafe(s: string) {
    '&' !in s && '=' !in s
  }

  function EncodePairs(ps: seq<(string, string)>): (parts: seq<string>)
    ensures |parts| == |ps|
    ensures forall k :: 0 <= k < |ps| ==> parts[k] == ps[k].0 + "=" + ps[k].1
  {
    if |ps| == 0 then [] else [ps[0].0 + "=" + ps[0].1] + EncodePairs(ps[1..])
  }

  /** `k1=v1&k2=v2&...`: the query string a template literal writes for
      these parameters, in this order. */
  function QueryString(ps: seq<(string, string)>): string {
    Join(EncodePairs(ps), '&')
  }

  function DecodePair(s: string): (string, string) {
    var i := FirstIndex(s, '=');
    if i == |s| then (s, "") else (s[..i], s[i + 1..])
  }

  function DecodePairs(parts: seq<string>): (ps: seq<(string, string)>)
    ensures |ps| == |parts|
    ensures forall k :: 0 <= k < |parts| ==> ps[k] == DecodePair(parts[k])
  {
    if |parts| == 0 then [] else [DecodePair(parts[0])] + DecodePairs(parts[1..])
  }

  /** The parameters of a query string, in order. */
  function ParseQuery(q: string): seq<(string, string)> {
    DecodePairs(Split(q, '&'))
  }

  /** Everything after the first `?` of a URL, or "" when it has none. */
  function QueryOf(url: string): string {
    var i := FirstIndex(url, '?');
    if i == |url| then "" else url[i + 1..]
  }

  lemma DecodeEncodedPair(k: string, v: string)
    requires '=' !in k
    ensures DecodePair(k + "=" + v) == (k, v)
  {
    FirstIndexAfter(k, '=', v);
    var s := k + "=" + v;
    assert s == k + ['='] + v;
    assert s[..|k|] == k;
    assert s[|k| + 1..] == v;
  }

  /** Parsing a query string gives back exactly the parameters it was built
      from, in order, as long as no key or value contains `&` or `=`. */
  lemma QueryRoundTrip(ps: seq<(string, string)>)
    requires |ps| >= 1
    requires forall k :: 0 <= k < |ps| ==> QuerySafe(ps[k].0) && QuerySafe(ps[k].1)
    ensures ParseQuery(QueryString(ps)) == ps
  {
    var parts := EncodePairs(ps);
    SplitJoin(parts, '&');
    forall k | 0 <= k < |ps|
      ensures DecodePair(parts[k]) == ps[k]
    {
      DecodeEncodedPair(ps[k].0, ps[k].1);
    }
  }

  /** What the template literal `${i}` writes never disturbs a query string. */
  lemma ShowIntQuerySafe(i: int)
    ensures QuerySafe(ShowInt(i))
  {
  }
}

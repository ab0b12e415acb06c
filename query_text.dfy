/**
 * The text the food-log request is built from: Python's rendering of an
 * integer, joining pieces with a separator, and the `key=value&...` query
 * string together with the parser that reads it back.
 */
module QueryText {

  /** A character Python's `str` of an integer may contain. */
  predicate IsIntChar(c: char) {
    c == '-' || '0' <= c <= '9'
  }

  /** Reference reading of a string of decimal digits, most significant first. */
  function DigitsValue(s: string): int {
    if s == [] then 0 else 10 * DigitsValue(s[..|s| - 1]) + (s[|s| - 1] as int - '0' as int)
  }

  /** Reference reading of an integer's text: a leading '-' negates the digits after it. */
  function IntValue(s: string): int {
    if |s| > 0 && s[0] == '-' then -DigitsValue(s[1..]) else DigitsValue(s)
  }

  /** Decimal digits of `n`, most significant first, as Python's `str(n)`. */
  function NatText(n: nat): (s: string)
    ensures |s| > 0
    ensures forall k :: 0 <= k < |s| ==> '0' <= s[k] <= '9'
    ensures s[0] == '0' ==> n == 0
    decreases n
  {
    var digit := ('0' as int + n % 10) as char;
    if n < 10 then [digit] else NatText(n / 10) + [digit]
  }

  /** Python's `str(i)` of an integer: a minus sign before negatives. */
  function IntText(i: int): (s: string)
    ensures |s| > 0
    ensures forall k :: 0 <= k < |s| ==> IsIntChar(s[k])
    ensures (s[0] == '-') <==> i < 0
    ensures |s| > 1 && s[0] != '-' ==> s[0] != '0'
    ensures s[0] == '-' ==> |s| > 1 && s[1] != '0'
  {
    if i < 0 then "-" + NatText(-i) else NatText(i)
  }

  /** The digits of a natural number read back as that number. */
  lemma {:induction false} NatTextReadsBack(n: nat)
    ensures DigitsValue(NatText(n)) == n
    decreases n
  {
    if n >= 10 {
      var rest := NatText(n / 10);
      var s := NatText(n);
      assert s == rest + [('0' as int + n % 10) as char];
      assert s[..|s| - 1] == rest;
      NatTextReadsBack(n / 10);
    }
  }

  /** The text of an integer reads back as that integer. */
  lemma IntTextReadsBack(i: int)
    ensures IntValue(IntText(i)) == i
  {
    if i < 0 {
      assert IntText(i)[1..] == NatText(-i);
      NatTextReadsBack(-i);
    } else {
      NatTextReadsBack(i);
    }
  }

  /** `sep.join(parts)` in Python. */
  function Join(parts: seq<string>, sep: char): (s: string)
    ensures |parts| == 0 ==> s == ""
    ensures |parts| > 0 ==> parts[0] <= s
  {
    if |parts| == 0 then ""
    else if |parts| == 1 then parts[0]
    else parts[0] + [sep] + Join(parts[1..], sep)
  }

  /** Position of the first occurrence of `c` in `s`. */
  function IndexOf(s: string, c: char): (i: nat)
    requires c in s
    ensures i < |s| && s[i] == c
    ensures forall k :: 0 <= k < i ==> s[k] != c
  {
    if s[0] == c then 0 else 1 + IndexOf(s[1..], c)
  }

  /** `s.split(sep)` in Python: the pieces between the separators. */
  function Split(s: string, sep: char): (parts: seq<string>)
    ensures |parts| > 0
    ensures forall k :: 0 <= k < |parts| ==> sep !in parts[k]
    ensures Join(parts, sep) == s
    decreases |s|
  {
    if sep in s then
      var i := IndexOf(s, sep);
      var rest := Split(s[i + 1..], sep);
      assert sep !in s[..i] by {
        forall k | 0 <= k < i ensures s[..i][k] != sep { }
      }
      assert ([s[..i]] + rest)[1..] == rest;
      assert s == s[..i] + [sep] + s[i + 1..];
      [s[..i]] + rest
    else
      [s]
  }

  /** The first separator of `a + [c] + b` is the one after `a` when `a` has none. */
  lemma {:induction false} IndexOfAfter(a: string, c: char, b: string)
    requires c !in a
    ensures c in a + [c] + b && IndexOf(a + [c] + b, c) == |a|
  {
    var s := a + [c] + b;
    assert s[|a|] == c;
    if a != [] {
      assert s[0] == a[0];
      assert s[1..] == a[1..] + [c] + b;
      IndexOfAfter(a[1..], c, b);
    }
  }

  /** Splitting a join gives back the pieces, when no piece holds the separator. */
  lemma {:induction false} SplitJoin(parts: seq<string>, sep: char)
    requires |parts| > 0
    requires forall k :: 0 <= k < |parts| ==> sep !in parts[k]
    ensures Split(Join(parts, sep), sep) == parts
  {
    if |parts| > 1 {
      var head, tail := parts[0], Join(parts[1..], sep);
      var s := Join(parts, sep);
      assert s == head + [sep] + tail;
      IndexOfAfter(head, sep, tail);
      assert s[..|head|] == head;
      assert s[|head| + 1..] == tail;
      SplitJoin(parts[1..], sep);
    }
  }

  /** One `key=value` field, as the f-string `f"{key}={value}"`. */
  function Field(param: (string, string)): (f: string)
    ensures |f| == |param.0| + 1 + |param.1|
    ensures f[..|param.0|] == param.0 && f[|param.0|] == '=' && f[|param.0| + 1..] == param.1
  {
    param.0 + "=" + param.1
  }

  /** The query string `"&".join(f"{key}={value}" ...)` over the pairs in order. */
  function QueryString(params: seq<(string, string)>): (q: string)
    ensures |params| == 0 ==> q == ""
    ensures |params| > 0 ==> Field(params[0]) <= q
  {
    Join(seq(|params|, k requires 0 <= k < |params| => Field(params[k])), '&')
  }

  /** Reads one field back: the key ends at the first `=`. */
  function ParseField(field: string): (string, string) {
    if '=' in field then
      var i := IndexOf(field, '=');
      (field[..i], field[i + 1..])
    else
      (field, "")
  }

  /** Reads a query string back into its pairs, in order. */
  function ParseQuery(query: string): seq<(string, string)> {
    var fields := Split(query, '&');
    seq(|fields|, k requires 0 <= k < |fields| => ParseField(fields[k]))
  }

  /** Keys free of `&` and `=`, values free of `&`: what the query string can carry. */
  predicate Encodable(params: seq<(string, string)>) {
    forall k :: 0 <= k < |params| ==>
      '&' !in params[k].0 && '=' !in params[k].0 && '&' !in params[k].1
  }

  /** Parsing the query string gives back every pair, in order. */
  lemma {:induction false} ParseQueryString(params: seq<(string, string)>)
    requires |params| > 0
    requires Encodable(params)
    ensures ParseQuery(QueryString(params)) == params
  {
    var fields := seq(|params|, k requires 0 <= k < |params| => Field(params[k]));
    forall k | 0 <= k < |fields| ensures '&' !in fields[k] {
      assert fields[k] == params[k].0 + ['='] + params[k].1;
    }
    SplitJoin(fields, '&');
    forall k | 0 <= k < |fields| ensures ParseField(fields[k]) == params[k] {
      var f := fields[k];
      assert f == params[k].0 + ['='] + params[k].1;
      IndexOfAfter(params[k].0, '=', params[k].1);
      assert f[..|params[k].0|] == params[k].0;
      assert f[|params[k].0| + 1..] == params[k].1;
    }
  }
}

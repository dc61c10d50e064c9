/**
 * The pieces of JavaScript string handling the home page relies on when it builds
 * composition links (`Array.prototype.join` and the decimal text of a number inside a
 * template string), and a reader that splits a query string back into key/value
 * pairs, in the manner of `String.prototype.split`, to check the links against.
 */
module JsText {

  /** `parts.join(sep)`: the parts with `sep` between neighbours; `[]` joins to "". */
  function Join(parts: seq<string>, sep: char): (r: string)
    ensures parts == [] ==> r == ""
  {
    if parts == [] then ""
    else if |parts| == 1 then parts[0]
    else parts[0] + [sep] + Join(parts[1..], sep)
  }

  /** `s.split(sep)`: the maximal pieces between separators; "" splits to [""]. */
  function Split(s: string, sep: char): (r: seq<string>)
    ensures |r| >= 1
    ensures |r| == 1 ==> sep !in s
  {
    if s == [] then [""]
    else
      var rest := Split(s[1..], sep);
      if s[0] == sep then [""] + rest
      else [[s[0]] + rest[0]] + rest[1..]
  }

  /** Splits `s` at its first `sep`: the text before it and the text after it
      (everything, and "", when `sep` does not occur). */
  function BreakAt(s: string, sep: char): (r: (string, string))
    ensures sep !in r.0
    ensures sep in s ==> r.0 + [sep] + r.1 == s
    ensures sep !in s ==> r == (s, "")
  {
    if s == [] then ("", "")
    else if s[0] == sep then ("", s[1..])
    else
      var rest := BreakAt(s[1..], sep);
      assert s == [s[0]] + s[1..];
      ([s[0]] + rest.0, rest.1)
  }

  /** Reads a query string `k1=v1&k2=v2&…` into its pairs, in order. */
  function ParseQuery(query: string): (r: seq<(string, string)>)
    ensures |r| == |Split(query, '&')|
  {
    ReadPairs(Split(query, '&'))
  }

  /** Each `key=value` piece as its pair. */
  function ReadPairs(pieces: seq<string>): (r: seq<(string, string)>)
    ensures |r| == |pieces|
  {
    seq(|pieces|, i requires 0 <= i < |pieces| => BreakAt(pieces[i], '='))
  }

  lemma ReadPairsAppend(a: seq<string>, b: seq<string>)
    ensures ReadPairs(a + b) == ReadPairs(a) + ReadPairs(b)
  {
  }

  lemma {:induction false} SplitWithoutSep(s: string, sep: char)
    requires sep !in s
    ensures Split(s, sep) == [s]
  {
    if s != [] {
      SplitWithoutSep(s[1..], sep);
      assert s == [s[0]] + s[1..];
    }
  }

  /** A piece free of the separator, followed by the separator, splits off as one piece. */
  lemma {:induction false} SplitAfterPiece(p: string, sep: char, rest: string)
    requires sep !in p
    ensures Split(p + [sep] + rest, sep) == [p] + Split(rest, sep)
  {
    if p == [] {
      assert p + [sep] + rest == [sep] + rest;
      assert ([sep] + rest)[1..] == rest;
    } else {
      var s := p + [sep] + rest;
      assert s[0] == p[0];
      assert s[1..] == p[1..] + [sep] + rest;
      SplitAfterPiece(p[1..], sep, rest);
      assert [p[0]] + p[1..] == p;
    }
  }

  /** Joining separator-free parts and splitting again gives the parts back. */
  lemma {:induction false} SplitJoin(parts: seq<string>, sep: char)
    requires parts != []
    requires forall i :: 0 <= i < |parts| ==> sep !in parts[i]
    ensures Split(Join(parts, sep), sep) == parts
  {
    if |parts| == 1 {
      SplitWithoutSep(parts[0], sep);
    } else {
      SplitJoin(parts[1..], sep);
      SplitAfterPiece(parts[0], sep, Join(parts[1..], sep));
      assert [parts[0]] + parts[1..] == parts;
    }
  }

  /** A key free of `sep`, then `sep`, then a value, breaks back into that key and value. */
  lemma {:induction false} BreakAtPair(k: string, sep: char, v: string)
    requires sep !in k
    ensures BreakAt(k + [sep] + v, sep) == (k, v)
  {
    if k == [] {
      assert k + [sep] + v == [sep] + v;
      assert ([sep] + v)[1..] == v;
    } else {
      var s := k + [sep] + v;
      assert s[0] == k[0];
      assert s[1..] == k[1..] + [sep] + v;
      BreakAtPair(k[1..], sep, v);
      assert [k[0]] + k[1..] == k;
    }
  }

  predicate IsDigit(c: char) { '0' <= c <= '9' }

  function DigitChar(d: nat): (c: char)
    requires d < 10
    ensures IsDigit(c)
  {
    "0123456789"[d]
  }

  /** The decimal digits of `n`, most significant first, without leading zeros. */
  function Digits(n: nat): (r: string)
    ensures |r| >= 1
    ensures forall i :: 0 <= i < |r| ==> IsDigit(r[i])
    ensures |r| > 1 ==> r[0] != '0'
    decreases n
  {
    if n < 10 then [DigitChar(n)] else Digits(n / 10) + [DigitChar(n % 10)]
  }

  /** `${n}` for an integer `n`: its decimal text, with a leading '-' when negative. */
  function NumberText(n: int): (r: string)
    ensures |r| >= 1
    ensures forall i :: 0 <= i < |r| ==> IsDigit(r[i]) || r[i] == '-'
    ensures forall i :: 0 < i < |r| ==> IsDigit(r[i])
    ensures (r[0] == '-') <==> n < 0
  {
    if n < 0 then "-" + Digits(-n) else Digits(n)
  }

  /** The value of a string of decimal digits, most significant first. */
  function DigitsValue(s: string): int
  {
    if s == [] then 0 else DigitsValue(s[..|s| - 1]) * 10 + (s[|s| - 1] as int - '0' as int)
  }

  /** The number a decimal text with an optional leading '-' stands for. */
  function NumberValue(s: string): int
  {
    if s != [] && s[0] == '-' then -DigitsValue(s[1..]) else DigitsValue(s)
  }

  /** The digits of `n` spell `n`. */
  lemma {:induction false} DigitsRoundTrip(n: nat)
    ensures DigitsValue(Digits(n)) == n
    decreases n
  {
    if n >= 10 {
      DigitsRoundTrip(n / 10);
      var s := Digits(n / 10) + [DigitChar(n % 10)];
      assert s[..|s| - 1] == Digits(n / 10);
    }
  }

  /** The text of a number spells that number. */
  lemma NumberTextRoundTrip(n: int)
    ensures NumberValue(NumberText(n)) == n
  {
    if n < 0 {
      DigitsRoundTrip(-n);
      assert NumberText(n)[1..] == Digits(-n);
    } else {
      DigitsRoundTrip(n);
    }
  }

  /** Different numbers have different texts. */
  lemma NumberTextInjective(a: int, b: int)
    ensures NumberText(a) == NumberText(b) ==> a == b
  {
    NumberTextRoundTrip(a);
    NumberTextRoundTrip(b);
  }

  /** The text of a number never contains the query-string delimiters. */
  lemma NumberTextIsQuerySafe(n: int)
    ensures '&' !in NumberText(n) && '=' !in NumberText(n) && '?' !in NumberText(n)
  {
    var r := NumberText(n);
    forall i | 0 <= i < |r| ensures r[i] != '&' && r[i] != '=' && r[i] != '?' {
      assert IsDigit(r[i]) || r[i] == '-';
    }
  }
}

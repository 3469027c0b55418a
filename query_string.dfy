/**
 * How a query string written into a redirect's Location comes back as
 * `request.args` of the next request: the browser sends what follows the
 * first `?` and drops a `#` fragment, and Werkzeug splits it on `&`, splits
 * each pair at its first `=`, and percent-decodes names and values with `+`
 * read as a space. `request.args.get(name)` is the first value given for a
 * name. This is the behaviour of the Python standard library's `parse_qsl`
 * with blank values kept.
 */
module QueryString {

  /** The position of the first `c` in `s`, or `|s|` when there is none. */
  function IndexOf(s: string, c: char): (i: nat)
    ensures i <= |s|
    ensures i < |s| ==> s[i] == c
    ensures c !in s[..i]
  {
    if s == [] then 0
    else if s[0] == c then 0
    else 1 + IndexOf(s[1..], c)
  }

  /** `s.split(c)`: the pieces between occurrences of `c`, at least one. */
  function Split(s: string, c: char): (r: seq<string>)
    decreases |s|
    ensures |r| >= 1
  {
    var i := IndexOf(s, c);
    if i == |s| then [s] else [s[..i]] + Split(s[i + 1..], c)
  }

  predicate IsHexDigit(c: char)
  {
    '0' <= c <= '9' || 'a' <= c <= 'f' || 'A' <= c <= 'F'
  }

  function HexValue(c: char): (v: nat)
    requires IsHexDigit(c)
    ensures v < 16
  {
    if '0' <= c <= '9' then c as int - '0' as int
    else if 'a' <= c <= 'f' then c as int - 'a' as int + 10
    else c as int - 'A' as int + 10
  }

  const HexDigitsUpper: string := "0123456789ABCDEF"

  /** Percent-decoding with `+` read as a space; a `%` not followed by two hex digits is kept. */
  function Unquote(s: string): string
  {
    if s == [] then ""
    else if s[0] == '%' && |s| >= 3 && IsHexDigit(s[1]) && IsHexDigit(s[2]) then
      [(HexValue(s[1]) * 16 + HexValue(s[2])) as char] + Unquote(s[3..])
    else
      [if s[0] == '+' then ' ' else s[0]] + Unquote(s[1..])
  }

  /** The characters that carry meaning in a query string or a Location header. */
  const Reserved: set<char> := {'%', '&', '+', '#', '=', ' '}

  function QuoteChar(c: char): string
  {
    if c in Reserved then ['%', HexDigitsUpper[c as int / 16], HexDigitsUpper[c as int % 16]]
    else [c]
  }

  /** Percent-encodes the characters that carry meaning in a query, so decoding gives the value back. */
  function Quote(s: string): string
  {
    if s == [] then "" else QuoteChar(s[0]) + Quote(s[1..])
  }

  /** The query string the browser sends when it follows a redirect to `url`. */
  function QueryOf(url: string): string
  {
    var q := IndexOf(url, '?');
    if q == |url| then ""
    else
      var rest := url[q + 1..];
      rest[..IndexOf(rest, '#')]
  }

  /** Name-value pairs, earlier pairs winning; empty pieces are skipped, a piece without `=` has an empty value. */
  function ParsePairs(pairs: seq<string>): map<string, string>
  {
    if pairs == [] then map[]
    else
      var rest := ParsePairs(pairs[1..]);
      var p := pairs[0];
      if p == "" then rest
      else
        var i := IndexOf(p, '=');
        rest[Unquote(p[..i]) := if i == |p| then "" else Unquote(p[i + 1..])]
  }

  /** `request.args` of the request that follows a redirect to `url`. */
  function RequestArgs(url: string): map<string, string>
  {
    ParsePairs(Split(QueryOf(url), '&'))
  }

  lemma IndexOfAbsent(s: string, c: char)
    requires c !in s
    ensures IndexOf(s, c) == |s|
  {
  }

  lemma {:induction false} IndexOfAfter(a: string, c: char, b: string)
    requires c !in a
    ensures IndexOf(a + [c] + b, c) == |a|
  {
    if a != [] {
      assert (a + [c] + b)[1..] == a[1..] + [c] + b;
      IndexOfAfter(a[1..], c, b);
    }
  }

  lemma {:induction false} UnquoteQuoteChar(c: char, t: string)
    ensures Unquote(QuoteChar(c) + t) == [c] + Unquote(t)
  {
    var s := QuoteChar(c) + t;
    if c in Reserved {
      var hi, lo := HexDigitsUpper[c as int / 16], HexDigitsUpper[c as int % 16];
      assert IsHexDigit(hi) && IsHexDigit(lo);
      assert HexValue(hi) == c as int / 16 && HexValue(lo) == c as int % 16;
      assert s[3..] == t;
    } else {
      assert s[1..] == t;
    }
  }

  /** Decoding undoes encoding. */
  lemma {:induction false} UnquoteQuote(s: string)
    ensures Unquote(Quote(s)) == s
  {
    if s != [] {
      UnquoteQuote(s[1..]);
      UnquoteQuoteChar(s[0], Quote(s[1..]));
    }
  }

  /** An encoded value contains no reserved character other than the `%` of its escapes. */
  lemma {:induction false} QuoteAvoidsReserved(s: string, c: char)
    requires c in Reserved && c != '%'
    ensures c !in Quote(s)
  {
    if s != [] {
      QuoteAvoidsReserved(s[1..], c);
      var d := s[0];
      if d in Reserved {
        assert HexDigitsUpper[d as int / 16] != c && HexDigitsUpper[d as int % 16] != c;
      }
      assert Quote(s) == QuoteChar(d) + Quote(s[1..]);
    }
  }

  /** A value free of reserved characters is its own encoding. */
  lemma {:induction false} QuotePlain(s: string)
    requires forall c :: c in Reserved ==> c !in s
    ensures Quote(s) == s
  {
    if s != [] {
      QuotePlain(s[1..]);
    }
  }

  /** A URL without `?` carries no query arguments. */
  lemma RequestArgsWithoutQuery(url: string)
    requires '?' !in url
    ensures RequestArgs(url) == map[]
  {
    IndexOfAbsent(url, '?');
    assert QueryOf(url) == "";
    assert Split("", '&') == [""];
    assert ParsePairs([""]) == ParsePairs([]);
  }

  /** The query arguments of a URL are read from what follows its first `?`. */
  lemma RequestArgsAfterBase(base: string, query: string)
    requires '?' !in base && '#' !in query
    ensures RequestArgs(base + "?" + query) == ParsePairs(Split(query, '&'))
  {
    var url := base + "?" + query;
    IndexOfAfter(base, '?', query);
    assert url[|base| + 1..] == query;
    IndexOfAbsent(query, '#');
    assert query[..|query|] == query;
    assert QueryOf(url) == query;
  }

  /**
   * A single encoded argument comes back as itself: the round trip that
   * `url_for(endpoint, name=value)` guarantees.
   */
  lemma RequestArgsOfQuotedValue(base: string, name: string, value: string)
    requires '?' !in base && name != ""
    requires forall c :: c in Reserved ==> c !in name
    ensures RequestArgs(base + "?" + name + "=" + Quote(value)) == map[name := value]
  {
    var q := name + "=" + Quote(value);
    QuoteAvoidsReserved(value, '#');
    QuoteAvoidsReserved(value, '&');
    assert '#' !in q && '&' !in q;
    assert base + "?" + name + "=" + Quote(value) == base + "?" + q;
    RequestArgsAfterBase(base, q);
    IndexOfAbsent(q, '&');
    assert Split(q, '&') == [q];
    IndexOfAfter(name, '=', Quote(value));
    assert q[..|name|] == name && q[|name| + 1..] == Quote(value);
    QuotePlain(name);
    UnquoteQuote(name);
    UnquoteQuote(value);
  }

  /** Text without `%` or `+` decodes to itself. */
  lemma {:induction false} UnquotePlain(s: string)
    requires '%' !in s && '+' !in s
    ensures Unquote(s) == s
  {
    if s != [] {
      UnquotePlain(s[1..]);
    }
  }

  /**
   * Unencoded text pasted after `name=` is cut at its first `&`: the
   * argument holds only the part before it.
   */
  lemma RequestArgsCutAtAmpersand(base: string, name: string, value: string, rest: string)
    requires '?' !in base && name != ""
    requires forall c :: c in Reserved ==> c !in name
    requires '%' !in value && '&' !in value && '+' !in value && '#' !in value
    requires '#' !in rest
    ensures var args := RequestArgs(base + "?" + name + "=" + value + "&" + rest);
            name in args && args[name] == value
  {
    var pair := name + "=" + value;
    var q := pair + "&" + rest;
    assert base + "?" + name + "=" + value + "&" + rest == base + "?" + q;
    assert '#' !in q;
    RequestArgsAfterBase(base, q);
    IndexOfAfter(pair, '&', rest);
    assert q[..|pair|] == pair && q[|pair| + 1..] == rest;
    assert Split(q, '&') == [pair] + Split(rest, '&');
    IndexOfAfter(name, '=', value);
    assert pair[..|name|] == name && pair[|name| + 1..] == value;
    UnquotePlain(name);
    UnquotePlain(value);
  }
}

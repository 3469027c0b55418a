/**
 * The two Python text operations the auth routes use to report toolkit
 * errors: `sep.join(parts)` (the metadata route's error body) and the
 * `repr` of a list of strings (interpolated by `f"...{errors}"` in the ACS
 * error messages).
 */
module PythonText {

  /** `sep.join(parts)`. */
  function Join(parts: seq<string>, sep: string): (r: string)
    ensures parts == [] ==> r == ""
    ensures |parts| == 1 ==> r == parts[0]
    // every part and every separator is kept: nothing is dropped or added
    ensures |r| == TotalLength(parts) + (if parts == [] then 0 else (|parts| - 1) * |sep|)
  {
    if parts == [] then ""
    else if |parts| == 1 then parts[0]
    else parts[0] + sep + Join(parts[1..], sep)
  }

  function TotalLength(parts: seq<string>): nat
  {
    if parts == [] then 0 else |parts[0]| + TotalLength(parts[1..])
  }

  /** `a` occurs in `b` as a contiguous substring. */
  predicate Occurs(a: string, b: string)
  {
    exists k :: 0 <= k && k + |a| <= |b| && Window(b, k, |a|) == a
  }

  /** The `n` characters of `b` from position `k`. */
  function Window(b: string, k: nat, n: nat): string
    requires k + n <= |b|
  {
    b[k..k + n]
  }

  lemma OccursInConcat(a: string, p: string, b: string, q: string)
    requires Occurs(a, b)
    ensures Occurs(a, p + b + q)
  {
    var k :| 0 <= k && k + |a| <= |b| && Window(b, k, |a|) == a;
    var w := p + b + q;
    assert Window(w, |p| + k, |a|) == Window(b, k, |a|);
  }

  lemma OccursInItself(a: string)
    ensures Occurs(a, a)
  {
    assert Window(a, 0, |a|) == a;
  }

  /** Every part of a join can be found in the joined text. */
  lemma {:induction false} JoinContainsEachPart(parts: seq<string>, sep: string, i: nat)
    requires i < |parts|
    ensures Occurs(parts[i], Join(parts, sep))
  {
    if |parts| == 1 {
      OccursInItself(parts[0]);
    } else if i == 0 {
      OccursInItself(parts[0]);
      OccursInConcat(parts[0], "", parts[0], sep + Join(parts[1..], sep));
      assert "" + parts[0] + (sep + Join(parts[1..], sep)) == Join(parts, sep);
    } else {
      JoinContainsEachPart(parts[1..], sep, i - 1);
      OccursInConcat(parts[i], parts[0] + sep, Join(parts[1..], sep), "");
      assert parts[0] + sep + Join(parts[1..], sep) + "" == Join(parts, sep);
    }
  }

  const HexDigitsLower: string := "0123456789abcdef"

  /**
   * `repr` of one character inside a string literal delimited by `quote`:
   * the quote and backslash are escaped, tab, newline and carriage return
   * get their short escapes, other ASCII control characters a `\x` escape.
   */
  function ReprChar(c: char, quote: char): string
  {
    if c == quote || c == '\\' then ['\\', c]
    else if c == '\t' then "\\t"
    else if c == '\n' then "\\n"
    else if c == '\r' then "\\r"
    else if c < ' ' || c as int == 0x7f then
      ['\\', 'x', HexDigitsLower[c as int / 16], HexDigitsLower[c as int % 16]]
    else [c]
  }

  function ReprBody(s: string, quote: char): string
  {
    if s == [] then "" else ReprChar(s[0], quote) + ReprBody(s[1..], quote)
  }

  /**
   * `repr(s)`: single quotes unless the text holds a single quote and no
   * double quote.
   */
  function StrRepr(s: string): (r: string)
    ensures |r| >= 2 && r[0] == r[|r| - 1] && r[0] in {'\'', '"'}
    ensures r[0] == '"' <==> '\'' in s && '"' !in s
  {
    var quote := if '\'' in s && '"' !in s then '"' else '\'';
    [quote] + ReprBody(s, quote) + [quote]
  }

  /** A printable character that needs no escape inside single quotes. */
  predicate Plain(c: char)
  {
    ' ' <= c && c != '\'' && c != '\\' && c as int != 0x7f
  }

  lemma {:induction false} ReprBodyOfPlainText(s: string)
    requires forall i :: 0 <= i < |s| ==> Plain(s[i])
    ensures ReprBody(s, '\'') == s
  {
    if s != [] {
      ReprBodyOfPlainText(s[1..]);
      assert s == [s[0]] + s[1..];
    }
  }

  /** Text without quotes, backslashes or control characters is shown verbatim in single quotes. */
  lemma StrReprOfPlainText(s: string)
    requires forall i :: 0 <= i < |s| ==> Plain(s[i])
    ensures StrRepr(s) == "'" + s + "'"
  {
    ReprBodyOfPlainText(s);
  }

  function MapRepr(xs: seq<string>): (r: seq<string>)
    ensures |r| == |xs|
    ensures forall i :: 0 <= i < |xs| ==> r[i] == StrRepr(xs[i])
  {
    if xs == [] then [] else [StrRepr(xs[0])] + MapRepr(xs[1..])
  }

  /** `repr(xs)` of a list of strings, which is also what `f"{xs}"` produces. */
  function ListRepr(xs: seq<string>): (r: string)
    ensures |r| >= 2 && r[0] == '[' && r[|r| - 1] == ']'
    ensures xs == [] <==> r == "[]"
  {
    "[" + Join(MapRepr(xs), ", ") + "]"
  }

  /** Each string of the list appears, as its own `repr`, in the list's `repr`. */
  lemma ListReprShowsEachItem(xs: seq<string>, i: nat)
    requires i < |xs|
    ensures Occurs(StrRepr(xs[i]), ListRepr(xs))
  {
    JoinContainsEachPart(MapRepr(xs), ", ", i);
    OccursInConcat(StrRepr(xs[i]), "[", Join(MapRepr(xs), ", "), "]");
  }
}

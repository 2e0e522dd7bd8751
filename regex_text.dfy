/**
 * Text handling behind the keyword search: Go's `regexp.QuoteMeta`, which puts
 * a backslash in front of each of the characters \.+*?()|[]{}^$, and
 * `strings.Join`. `Unquote` and `SplitBars` undo them: splitting the joined
 * pattern at the bars that are not escaped, then removing the escapes, gives
 * back the keyword list.
 */
module RegexText {

  /** The characters `regexp.QuoteMeta` escapes. */
  predicate IsSpecial(c: char)
  {
    c in "\\.+*?()|[]{}^$"
  }

  /** One character as `regexp.QuoteMeta` writes it. */
  function QuoteChar(c: char): string
  {
    if IsSpecial(c) then ['\\', c] else [c]
  }

  /**
   * Every special character of `q` is the second character of an escape pair,
   * and every backslash opens one.
   */
  predicate Escaped(q: string)
    decreases |q|
  {
    q == []
    || (q[0] == '\\' && |q| >= 2 && IsSpecial(q[1]) && Escaped(q[2..]))
    || (!IsSpecial(q[0]) && Escaped(q[1..]))
  }

  /** All regular expression metacharacters of `s` come out escaped. */
  function QuoteMeta(s: string): (q: string)
    ensures Escaped(q)
    ensures |q| >= |s|
  {
    if s == [] then [] else QuoteChar(s[0]) + QuoteMeta(s[1..])
  }

  /** Drops the backslash of every escape pair. */
  function Unquote(s: string): string
  {
    if s == [] then []
    else if s[0] == '\\' && |s| >= 2 then [s[1]] + Unquote(s[2..])
    else [s[0]] + Unquote(s[1..])
  }

  /** `strings.Join`: the parts with `sep` between neighbours. */
  function Join(parts: seq<string>, sep: string): (r: string)
    ensures |parts| > 0 ==> parts[0] <= r
    ensures |parts| > 0 ==> |r| == TotalLength(parts) + (|parts| - 1) * |sep|
  {
    if |parts| == 0 then ""
    else if |parts| == 1 then parts[0]
    else parts[0] + sep + Join(parts[1..], sep)
  }

  /** The summed length of the parts. */
  function TotalLength(parts: seq<string>): nat
  {
    if parts == [] then 0 else |parts[0]| + TotalLength(parts[1..])
  }

  /** Splits at every `|` that is not the second character of an escape pair. */
  function SplitBars(p: string): (parts: seq<string>)
    ensures |parts| >= 1
  {
    if p == [] then [""]
    else if p[0] == '\\' && |p| >= 2 then
      var rest := SplitBars(p[2..]);
      [p[..2] + rest[0]] + rest[1..]
    else if p[0] == '|' then [""] + SplitBars(p[1..])
    else
      var rest := SplitBars(p[1..]);
      [[p[0]] + rest[0]] + rest[1..]
  }

  function QuoteAll(keywords: seq<string>): (quoted: seq<string>)
    ensures |quoted| == |keywords|
  {
    seq(|keywords|, i requires 0 <= i < |keywords| => QuoteMeta(keywords[i]))
  }

  function UnquoteAll(parts: seq<string>): (unquoted: seq<string>)
    ensures |unquoted| == |parts|
  {
    seq(|parts|, i requires 0 <= i < |parts| => Unquote(parts[i]))
  }

  /** The search pattern: the escaped keywords joined by `|`, in keyword order. */
  function SearchPattern(keywords: seq<string>): (p: string)
    ensures |keywords| == 0 ==> p == ""
    ensures |keywords| > 0 ==> QuoteMeta(keywords[0]) <= p
    ensures |keywords| > 0 ==> |p| == TotalLength(QuoteAll(keywords)) + |keywords| - 1
  {
    Join(QuoteAll(keywords), "|")
  }

  /** Removing the escapes gives back the original keyword. */
  lemma {:induction false} UnquoteQuoteMeta(s: string)
    ensures Unquote(QuoteMeta(s)) == s
    decreases |s|
  {
    if s != [] {
      var q := QuoteMeta(s[1..]);
      UnquoteQuoteMeta(s[1..]);
      if IsSpecial(s[0]) {
        assert QuoteMeta(s) == ['\\', s[0]] + q;
        assert (['\\', s[0]] + q)[2..] == q;
      } else {
        assert s[0] != '\\';
        assert QuoteMeta(s) == [s[0]] + q;
        assert ([s[0]] + q)[1..] == q;
      }
      assert [s[0]] + s[1..] == s;
    }
  }

  /** Splitting after a quoted character: it stays at the front of the first part. */
  lemma SplitAfterQuoted(c: char, t: string)
    ensures SplitBars(QuoteChar(c) + t) == [QuoteChar(c) + SplitBars(t)[0]] + SplitBars(t)[1..]
  {
  }

  /** An escaped keyword holds no unescaped `|`: splitting never cuts inside it. */
  lemma {:induction false} SplitQuotedPrefix(k: string, rest: string)
    ensures SplitBars(QuoteMeta(k) + rest)
         == [QuoteMeta(k) + SplitBars(rest)[0]] + SplitBars(rest)[1..]
    decreases |k|
  {
    if k == [] {
      var s := SplitBars(rest);
      assert QuoteMeta(k) == [];
      assert QuoteMeta(k) + rest == rest;
      assert QuoteMeta(k) + s[0] == s[0];
      assert [s[0]] + s[1..] == s;
    } else {
      SplitQuotedPrefix(k[1..], rest);
      SplitQuotedStep(k, rest);
    }
  }

  /** One step of the induction above: the first character of `k`, escaped or not, joins the first part. */
  lemma SplitQuotedStep(k: string, rest: string)
    requires k != []
    requires SplitBars(QuoteMeta(k[1..]) + rest)
          == [QuoteMeta(k[1..]) + SplitBars(rest)[0]] + SplitBars(rest)[1..]
    ensures SplitBars(QuoteMeta(k) + rest)
         == [QuoteMeta(k) + SplitBars(rest)[0]] + SplitBars(rest)[1..]
  {
    var s := SplitBars(rest);
    var q := QuoteMeta(k[1..]);
    var e := QuoteChar(k[0]);
    assert QuoteMeta(k) == e + q;
    Associative(e, q, rest);
    Associative(e, q, s[0]);
    SplitAfterQuoted(k[0], q + rest);
  }

  lemma Associative(a: string, b: string, c: string)
    ensures (a + b) + c == a + (b + c)
  {
  }

  /** Splitting the joined pattern yields the escaped keywords, one part each. */
  lemma {:induction false} SplitJoinedPattern(keywords: seq<string>)
    requires |keywords| > 0
    ensures SplitBars(SearchPattern(keywords)) == QuoteAll(keywords)
    decreases |keywords|
  {
    var qs := QuoteAll(keywords);
    if |keywords| == 1 {
      SplitQuotedPrefix(keywords[0], "");
      assert qs[0] + "" == qs[0];
      assert qs == [qs[0]];
    } else {
      var tail := keywords[1..];
      assert QuoteAll(tail) == qs[1..];
      SplitJoinedPattern(tail);
      JoinBarStep(qs);
      SplitQuotedPrefix(keywords[0], "|" + Join(qs[1..], "|"));
      SplitAtBar(Join(qs[1..], "|"));
      assert qs[0] + "" == qs[0];
      assert qs == [qs[0]] + qs[1..];
    }
  }

  /** The joined pattern is the first part, a bar, then the join of the rest. */
  lemma JoinBarStep(qs: seq<string>)
    requires |qs| >= 2
    ensures Join(qs, "|") == qs[0] + ("|" + Join(qs[1..], "|"))
  {
    Associative(qs[0], "|", Join(qs[1..], "|"));
  }

  /** A leading unescaped bar ends an empty first part. */
  lemma SplitAtBar(j: string)
    ensures SplitBars("|" + j) == [""] + SplitBars(j)
  {
    assert ("|" + j)[1..] == j;
  }

  /** The round trip of the search pattern: split at unescaped bars, unescape, and the keywords are back. */
  lemma PatternRoundTrip(keywords: seq<string>)
    requires |keywords| > 0
    ensures UnquoteAll(SplitBars(SearchPattern(keywords))) == keywords
  {
    SplitJoinedPattern(keywords);
    forall i | 0 <= i < |keywords|
      ensures UnquoteAll(QuoteAll(keywords))[i] == keywords[i]
    {
      UnquoteQuoteMeta(keywords[i]);
    }
  }
}

// String primitives the statement builder relies on, with the JavaScript
// semantics the source uses: String.prototype.trim, Array.prototype.join,
// String.prototype.split with the pattern /\s*,\s*/, and a global
// case-insensitive replace of a quoted keyword.

module Text {

  /** JavaScript's WhiteSpace and LineTerminator characters: what `trim()` removes and `\s` matches. */
  predicate IsSpace(c: char)
  {
    || c == ' ' || c == '\t' || c == '\n' || c == '\r' || c == '\U{000B}' || c == '\U{000C}'
    || c == '\U{00A0}' || c == '\U{1680}' || ('\U{2000}' <= c <= '\U{200A}')
    || c == '\U{2028}' || c == '\U{2029}' || c == '\U{202F}' || c == '\U{205F}'
    || c == '\U{3000}' || c == '\U{FEFF}'
  }

  predicate AllSpace(s: string)
  {
    forall k :: 0 <= k < |s| ==> IsSpace(s[k])
  }

  /** A string that `trim()` leaves unchanged: empty, or starting and ending with a non-space. */
  predicate Clean(s: string)
  {
    s == [] || (!IsSpace(s[0]) && !IsSpace(s[|s| - 1]))
  }

  predicate StartsWith(s: string, prefix: string)
  {
    |prefix| <= |s| && s[..|prefix|] == prefix
  }

  /** Number of spaces at the start of `s`. */
  function Leading(s: string): (n: nat)
    ensures n <= |s|
    ensures forall k :: 0 <= k < n ==> IsSpace(s[k])
    ensures n == |s| || !IsSpace(s[n])
  {
    if s != [] && IsSpace(s[0]) then 1 + Leading(s[1..]) else 0
  }

  /** Number of spaces at the end of `s`. */
  function Trailing(s: string): (n: nat)
    ensures n <= |s|
    ensures forall k :: |s| - n <= k < |s| ==> IsSpace(s[k])
    ensures n == |s| || !IsSpace(s[|s| - 1 - n])
  {
    if s != [] && IsSpace(s[|s| - 1]) then 1 + Trailing(s[..|s| - 1]) else 0
  }

  /** Removes the leading spaces, and only those. */
  function TrimStart(s: string): string
  {
    s[Leading(s)..]
  }

  /** Removes the trailing spaces, and only those. */
  function TrimEnd(s: string): string
  {
    s[..|s| - Trailing(s)]
  }

  /** `s.trim()` */
  function Trim(s: string): (r: string)
    ensures Clean(r)
    ensures r == [] <==> AllSpace(s)
    ensures |r| <= |s|
  {
    TrimEnd(TrimStart(s))
  }

  lemma TrimStartClean(s: string)
    requires s == [] || !IsSpace(s[0])
    ensures TrimStart(s) == s
  {
  }

  lemma TrimEndClean(s: string)
    requires s == [] || !IsSpace(s[|s| - 1])
    ensures TrimEnd(s) == s
  {
  }

  /** Trimming a clean string changes nothing; in particular trimming is idempotent. */
  lemma TrimClean(s: string)
    requires Clean(s)
    ensures Trim(s) == s
  {
    TrimStartClean(s);
    TrimEndClean(s);
  }

  /** Leading spaces in front of a string that starts with a non-space are exactly what TrimStart removes. */
  lemma {:induction false} TrimStartSpaces(sp: string, s: string)
    requires AllSpace(sp)
    requires s == [] || !IsSpace(s[0])
    ensures TrimStart(sp + s) == s
    decreases |sp|
  {
    if sp == [] {
      assert sp + s == s;
      TrimStartClean(s);
    } else {
      assert (sp + s)[0] == sp[0];
      assert (sp + s)[1..] == sp[1..] + s;
      TrimStartSpaces(sp[1..], s);
    }
  }

  /** `parts.join(sep)` */
  function Join(parts: seq<string>, sep: string): string
    decreases |parts|
  {
    if |parts| == 0 then ""
    else if |parts| == 1 then parts[0]
    else Join(parts[..|parts| - 1], sep) + sep + parts[|parts| - 1]
  }

  /** Join unfolded from the front. */
  lemma {:induction false} JoinCons(parts: seq<string>, sep: string)
    requires |parts| >= 2
    ensures Join(parts, sep) == parts[0] + sep + Join(parts[1..], sep)
    decreases |parts|
  {
    var n := |parts|;
    if n == 2 {
      assert parts[1..] == [parts[1]];
      assert parts[..1] == [parts[0]];
    } else {
      var init := parts[..n - 1];
      var rest := parts[1..];
      assert init[1..] == rest[..n - 2];
      assert rest[n - 2] == parts[n - 1];
      JoinCons(init, sep);
      assert Join(rest, sep) == Join(rest[..n - 2], sep) + sep + rest[n - 2];
    }
  }

  /** Join of a longer list of pieces: the old join, the separator, the new piece. */
  lemma JoinSnoc(parts: seq<string>, x: string, sep: string)
    ensures Join(parts + [x], sep) == if parts == [] then x else Join(parts, sep) + sep + x
  {
    var q := parts + [x];
    assert q[..|q| - 1] == parts;
    if parts == [] { assert q == [x]; }
  }

  /** A join is empty only when there is nothing to join, as long as the pieces are non-empty. */
  lemma {:induction false} JoinNonEmpty(parts: seq<string>, sep: string)
    requires forall i :: 0 <= i < |parts| ==> parts[i] != []
    ensures Join(parts, sep) == [] <==> parts == []
    decreases |parts|
  {
    if |parts| >= 2 {
      JoinNonEmpty(parts[..|parts| - 1], sep);
    }
  }

  /** The join starts with the first piece and ends with the last one. */
  lemma {:induction false} JoinEnds(parts: seq<string>, sep: string)
    requires |parts| >= 1
    ensures StartsWith(Join(parts, sep), parts[0])
    ensures var j := Join(parts, sep); |parts[|parts| - 1]| <= |j| && j[|j| - |parts[|parts| - 1]|..] == parts[|parts| - 1]
    decreases |parts|
  {
    if |parts| >= 2 {
      JoinCons(parts, sep);
      var j := Join(parts, sep);
      assert j[..|parts[0]|] == parts[0];
    }
  }

  /** Index of the first occurrence of `c`. */
  function IndexOf(s: string, c: char): (i: nat)
    requires c in s
    ensures i < |s| && s[i] == c && c !in s[..i]
  {
    if s[0] == c then 0
    else
      var j := IndexOf(s[1..], c);
      assert s[..j + 1] == [s[0]] + s[1..][..j];
      j + 1
  }

  /**
   * `s.split(/\s*,\s*\/)`: the text before the first comma loses the spaces
   * directly in front of that comma, the spaces after it are skipped, and the
   * rest is split the same way. A string without commas is one piece.
   */
  function SplitFields(s: string): (r: seq<string>)
    ensures |r| >= 1
    decreases |s|
  {
    if ',' !in s then [s]
    else
      var c := IndexOf(s, ',');
      [TrimEnd(s[..c])] + SplitFields(TrimStart(s[c + 1..]))
  }

  /** A piece that survives a join with ", " and a split on /\s*,\s*\/. */
  predicate SplitSafe(x: string)
  {
    ',' !in x && Clean(x)
  }

  /** One step of the split: a split-safe piece, the separator ", ", and a rest that starts with a non-space. */
  lemma SplitFirst(x: string, tail: string)
    requires SplitSafe(x)
    requires tail == [] || !IsSpace(tail[0])
    ensures SplitFields(x + ", " + tail) == [x] + SplitFields(tail)
  {
    var s := x + ", " + tail;
    SeparatorShape(x, tail);
    assert IndexOf(s, ',') == |x|;
    TrimEndClean(x);
    TrimStartSpaces(" ", tail);
  }

  /** Where the separator of `x + ", " + tail` sits. */
  lemma SeparatorShape(x: string, tail: string)
    ensures var s := x + ", " + tail; s[|x|] == ',' && s[..|x|] == x && s[|x| + 1..] == " " + tail
  {
    var s := x + ", " + tail;
    assert s[..|x|] == x;
    assert s[|x| + 1..] == " " + tail;
  }

  /** A join with ", " of split-safe pieces does not start with a space. */
  lemma JoinStartsSolid(parts: seq<string>)
    requires |parts| >= 1
    requires forall i :: 0 <= i < |parts| ==> SplitSafe(parts[i])
    ensures var j := Join(parts, ", "); j == [] || !IsSpace(j[0])
  {
    var j := Join(parts, ", ");
    JoinEnds(parts, ", ");
    if j != [] {
      if parts[0] == [] {
        if |parts| >= 2 {
          JoinCons(parts, ", ");
          assert j[0] == ',';
        }
      } else {
        assert j[0] == parts[0][0];
      }
    }
  }

  /** Splitting on /\s*,\s*\/ undoes a join with ", " of split-safe pieces. */
  lemma {:induction false} SplitJoin(parts: seq<string>)
    requires |parts| >= 1
    requires forall i :: 0 <= i < |parts| ==> SplitSafe(parts[i])
    ensures SplitFields(Join(parts, ", ")) == parts
    decreases |parts|
  {
    if |parts| == 1 {
      assert SplitFields(Join(parts, ", ")) == [parts[0]];
    } else {
      var rest := parts[1..];
      JoinCons(parts, ", ");
      JoinStartsSolid(rest);
      SplitFirst(parts[0], Join(rest, ", "));
      SplitJoin(rest);
    }
  }

  /** ASCII case folding, which is what a non-unicode `/i` regular expression uses. */
  function Lower(c: char): char
  {
    if 'A' <= c <= 'Z' then (c as int + 32) as char else c
  }

  predicate EqualsIgnoreCase(a: string, b: string)
  {
    |a| == |b| && forall k :: 0 <= k < |a| ==> Lower(a[k]) == Lower(b[k])
  }

  /**
   * `s.replace(/'W'/gi, W)` for a keyword W: every quoted occurrence of the
   * keyword, in any letter case, is replaced by the bare keyword, scanning
   * left to right without overlaps.
   */
  function ReplaceQuoted(s: string, word: string): string
    decreases |s|
  {
    if |s| < |word| + 2 then s
    else if s[0] == '\'' && EqualsIgnoreCase(s[1..|word| + 1], word) && s[|word| + 1] == '\'' then
      word + ReplaceQuoted(s[|word| + 2..], word)
    else [s[0]] + ReplaceQuoted(s[1..], word)
  }

  /** Text without a single quote is left alone by the keyword replacement. */
  lemma {:induction false} ReplaceQuotedNoQuote(s: string, word: string)
    requires '\'' !in s
    ensures ReplaceQuoted(s, word) == s
    decreases |s|
  {
    if |s| >= |word| + 2 {
      assert s[0] != '\'';
      assert '\'' !in s[1..] by {
        forall k | 0 <= k < |s| - 1 ensures s[1..][k] != '\'' { assert s[1..][k] == s[k + 1]; }
      }
      ReplaceQuotedNoQuote(s[1..], word);
    }
  }

  /** A quoted keyword, in any letter case, is replaced by the bare keyword and the scan goes on after it. */
  lemma ReplaceQuotedHit(v: string, word: string, rest: string)
    requires EqualsIgnoreCase(v, word)
    ensures ReplaceQuoted("'" + v + "'" + rest, word) == word + ReplaceQuoted(rest, word)
  {
    var s := "'" + v + "'" + rest;
    assert s[1..|word| + 1] == v;
    assert s[|word| + 2..] == rest;
  }

  /** A character other than a quote is copied and the scan goes on after it. */
  lemma ReplaceQuotedSkip(c: char, rest: string, word: string)
    requires c != '\''
    ensures ReplaceQuoted([c] + rest, word) == [c] + ReplaceQuoted(rest, word)
  {
    var s := [c] + rest;
    assert s[1..] == rest;
    if |s| < |word| + 2 {
      assert ReplaceQuoted(rest, word) == rest;
    }
  }

  /** A prefix without a quote is copied as it is. */
  lemma {:induction false} ReplaceQuotedPrefix(pre: string, rest: string, word: string)
    requires '\'' !in pre
    ensures ReplaceQuoted(pre + rest, word) == pre + ReplaceQuoted(rest, word)
    decreases |pre|
  {
    if pre != [] {
      var c, tail := pre[0], pre[1..];
      assert pre == [c] + tail;
      assert c in pre;
      assert '\'' !in tail by {
        forall k | 0 <= k < |tail| ensures tail[k] != '\'' { assert tail[k] == pre[k + 1]; }
      }
      assert pre + rest == [c] + (tail + rest);
      ReplaceQuotedSkip(c, tail + rest, word);
      ReplaceQuotedPrefix(tail, rest, word);
      assert [c] + (tail + ReplaceQuoted(rest, word)) == pre + ReplaceQuoted(rest, word);
    } else {
      assert pre + rest == rest;
    }
  }

  /** A single quote followed by text without one is left alone. */
  lemma ReplaceQuotedLoneQuote(rest: string, word: string)
    requires '\'' !in rest && word != []
    ensures ReplaceQuoted("'" + rest, word) == "'" + rest
  {
    var s := "'" + rest;
    assert s[1..] == rest;
    if |s| >= |word| + 2 {
      assert s[|word| + 1] == rest[|word|];
      assert rest[|word|] in rest;
      ReplaceQuotedNoQuote(rest, word);
    }
  }

  /** A text that matches a quote-free word letter by letter, up to case, holds no quote. */
  lemma EqualsIgnoreCaseNoQuote(v: string, word: string)
    requires EqualsIgnoreCase(v, word) && '\'' !in word
    ensures '\'' !in v
  {
    forall k | 0 <= k < |v| ensures v[k] != '\'' {
      assert word[k] in word;
    }
  }

  // ---------------------------------------------------------------------------
  // Quoted sort directions
  //
  // `orderBy` and `groupBy` run two passes, first for DESC, then for ASC. The
  // lemmas below take the two keywords as parameters `hi` (the first pass, the
  // longer word) and `lo` (the second pass).

  /** Two keywords the passes can tell apart: no quotes, and the first pass's word is longer. */
  predicate KeywordPair(hi: string, lo: string)
  {
    '\'' !in hi && '\'' !in lo && |lo| < |hi|
  }

  /** The bare keyword a quoted direction stands for. */
  function Keyword(v: string, hi: string, lo: string): string
  {
    if EqualsIgnoreCase(v, hi) then hi else lo
  }

  /**
   * One piece of a clause: text without a quote, then a quoted keyword in any
   * letter case. The text is not itself the first pass's keyword, which could
   * pair with the closing quote of a preceding quoted second keyword.
   */
  predicate DirectionItem(item: (string, string), hi: string, lo: string)
  {
    && '\'' !in item.0
    && (EqualsIgnoreCase(item.1, hi) || EqualsIgnoreCase(item.1, lo))
    && !EqualsIgnoreCase(item.0, hi)
  }

  predicate DirectionItems(items: seq<(string, string)>, hi: string, lo: string)
  {
    forall i :: 0 <= i < |items| ==> DirectionItem(items[i], hi, lo)
  }

  /** One piece written out with its quotes. */
  function QuotedPiece(item: (string, string)): string
  {
    item.0 + "'" + item.1 + "'"
  }

  /** One piece with its direction bare. */
  function BarePiece(item: (string, string), hi: string, lo: string): string
  {
    item.0 + Keyword(item.1, hi, lo)
  }

  /** One piece after the first pass: its keyword bare, the other still quoted. */
  function HalfPiece(item: (string, string), hi: string): string
  {
    if EqualsIgnoreCase(item.1, hi) then item.0 + hi else QuotedPiece(item)
  }

  /** The pieces written out with their quotes. */
  function Quoted(items: seq<(string, string)>): string
  {
    if items == [] then "" else QuotedPiece(items[0]) + Quoted(items[1..])
  }

  /** The pieces with every direction bare. */
  function Bare(items: seq<(string, string)>, hi: string, lo: string): string
  {
    if items == [] then "" else BarePiece(items[0], hi, lo) + Bare(items[1..], hi, lo)
  }

  /** The pieces after the first pass. */
  function HalfBare(items: seq<(string, string)>, hi: string): string
  {
    if items == [] then "" else HalfPiece(items[0], hi) + HalfBare(items[1..], hi)
  }

  /** A quote is copied when the text after it does not spell the keyword and a closing quote. */
  lemma ReplaceQuotedNoMatch(t: string, word: string)
    requires !(|t| > |word| && EqualsIgnoreCase(t[..|word|], word) && t[|word|] == '\'')
    ensures ReplaceQuoted("'" + t, word) == "'" + ReplaceQuoted(t, word)
  {
    var s := "'" + t;
    assert s[1..] == t;
    if |s| >= |word| + 2 {
      assert s[1..|word| + 1] == t[..|word|];
      assert s[|word| + 1] == t[|word|];
    } else {
      assert ReplaceQuoted(t, word) == t;
    }
  }

  /** Splitting the tail of a piece list off its head. */
  lemma DirectionItemsTail(items: seq<(string, string)>, hi: string, lo: string)
    requires items != [] && DirectionItems(items, hi, lo)
    ensures DirectionItem(items[0], hi, lo) && DirectionItems(items[1..], hi, lo)
  {
    assert DirectionItem(items[0], hi, lo);
    forall i | 0 <= i < |items| - 1 ensures DirectionItem(items[1..][i], hi, lo) {
      assert items[1..][i] == items[i + 1];
    }
  }

  /** A quote where the keyword has none rules out a match. */
  lemma QuoteBreaksMatch(a: string, word: string, k: nat)
    requires k < |a| && a[k] == '\'' && '\'' !in word
    ensures !EqualsIgnoreCase(a, word)
  {
    if |a| == |word| {
      assert word[k] in word;
      assert Lower(a[k]) != Lower(word[k]);
    }
  }

  /** The text after the closing quote of a piece never spells the first keyword and a quote. */
  lemma NoMatchAfter(items: seq<(string, string)>, rest: string, hi: string, lo: string)
    requires KeywordPair(hi, lo) && DirectionItems(items, hi, lo) && '\'' !in rest
    ensures var t := Quoted(items) + rest; !(|t| > |hi| && EqualsIgnoreCase(t[..|hi|], hi) && t[|hi|] == '\'')
  {
    var t := Quoted(items) + rest;
    if items == [] {
      assert t == rest;
      if |t| > |hi| {
        assert t[|hi|] in rest;
      }
    } else {
      var pre := items[0].0;
      DirectionItemsTail(items, hi, lo);
      assert t == pre + ("'" + items[0].1 + "'" + Quoted(items[1..]) + rest);
      if |pre| > |hi| {
        assert t[|hi|] == pre[|hi|] && pre[|hi|] in pre;
      } else if |pre| == |hi| {
        assert t[..|hi|] == pre;
      } else if |t| > |hi| {
        assert t[..|hi|][|pre|] == '\'';
        QuoteBreaksMatch(t[..|hi|], hi, |pre|);
      }
    }
  }

  /** Past a position where no quoted keyword starts, the first character is copied. */
  lemma ReplaceQuotedStep(s: string, word: string)
    requires s != []
    requires |s| >= |word| + 2 ==> !EqualsIgnoreCase(s[1..|word| + 1], word)
    ensures ReplaceQuoted(s, word) == [s[0]] + ReplaceQuoted(s[1..], word)
  {
    if |s| < |word| + 2 {
      assert ReplaceQuoted(s[1..], word) == s[1..];
      assert s == [s[0]] + s[1..];
    }
  }

  /** The first pass finds no match at the opening quote of the shorter quoted keyword. */
  lemma ShorterOpening(v: string, after: string, hi: string, lo: string)
    requires KeywordPair(hi, lo) && EqualsIgnoreCase(v, lo)
    ensures ReplaceQuoted("'" + v + "'" + after, hi) == ['\''] + ReplaceQuoted(v + ("'" + after), hi)
  {
    var s := "'" + v + "'" + after;
    QuotedShape(v, after, |hi|);
    if |s| >= |hi| + 2 {
      QuoteBreaksMatch(s[1..|hi| + 1], hi, |v|);
    }
    ReplaceQuotedStep(s, hi);
  }

  /** Where the quotes of a quoted word sit, for a window of `n` letters longer than the word. */
  lemma QuotedShape(v: string, after: string, n: nat)
    requires |v| < n
    ensures var s := "'" + v + "'" + after;
      s[1..] == v + ("'" + after) && (|s| >= n + 2 ==> s[1..n + 1][|v|] == '\'')
  {
    var s := "'" + v + "'" + after;
    assert s[1..] == v + ("'" + after);
    if |s| >= n + 2 {
      assert s[1..n + 1][|v|] == s[|v| + 1];
    }
  }

  /** The first pass copies the opening quote and the letters of the shorter quoted keyword. */
  lemma ShorterSurvives(v: string, after: string, hi: string, lo: string)
    requires KeywordPair(hi, lo) && EqualsIgnoreCase(v, lo)
    ensures ReplaceQuoted("'" + v + "'" + after, hi) == "'" + v + ReplaceQuoted("'" + after, hi)
  {
    ShorterOpening(v, after, hi, lo);
    EqualsIgnoreCaseNoQuote(v, lo);
    ReplaceQuotedPrefix(v, "'" + after, hi);
  }

  /** The first pass over a piece with the first keyword. */
  lemma FirstPassHit(pre: string, v: string, after: string, r: string, hi: string)
    requires '\'' !in pre && EqualsIgnoreCase(v, hi) && ReplaceQuoted(after, hi) == r
    ensures ReplaceQuoted(pre + ("'" + v + "'" + after), hi) == pre + (hi + r)
  {
    ReplaceQuotedPrefix(pre, "'" + v + "'" + after, hi);
    ReplaceQuotedHit(v, hi, after);
  }

  /** The first pass over a piece with the second keyword. */
  lemma FirstPassKeep(pre: string, v: string, after: string, r: string, hi: string, lo: string)
    requires KeywordPair(hi, lo) && '\'' !in pre && EqualsIgnoreCase(v, lo) && ReplaceQuoted(after, hi) == r
    requires !(|after| > |hi| && EqualsIgnoreCase(after[..|hi|], hi) && after[|hi|] == '\'')
    ensures ReplaceQuoted(pre + ("'" + v + "'" + after), hi) == pre + ("'" + v + ("'" + r))
  {
    ReplaceQuotedPrefix(pre, "'" + v + "'" + after, hi);
    ShorterSurvives(v, after, hi, lo);
    ReplaceQuotedNoMatch(after, hi);
  }

  /** The first pass over one piece. */
  lemma FirstPassStep(item: (string, string), after: string, r: string, hi: string, lo: string)
    requires KeywordPair(hi, lo) && DirectionItem(item, hi, lo) && ReplaceQuoted(after, hi) == r
    requires !(|after| > |hi| && EqualsIgnoreCase(after[..|hi|], hi) && after[|hi|] == '\'')
    ensures ReplaceQuoted(QuotedPiece(item) + after, hi) == HalfPiece(item, hi) + r
  {
    var (pre, v) := item;
    Regroup(pre, v, after);
    if EqualsIgnoreCase(v, hi) {
      FirstPassHit(pre, v, after, r, hi);
      Regroup2(pre, hi, r);
    } else {
      FirstPassKeep(pre, v, after, r, hi, lo);
      Regroup(pre, v, r);
    }
  }

  /** Regrouping a quoted piece and what follows it. */
  lemma Regroup(pre: string, v: string, after: string)
    ensures QuotedPiece((pre, v)) + after == pre + ("'" + v + "'" + after)
    ensures QuotedPiece((pre, v)) + after == pre + ("'" + v + ("'" + after))
  {
  }

  lemma Regroup2<T>(a: seq<T>, b: seq<T>, c: seq<T>)
    ensures (a + b) + c == a + (b + c)
  {
  }

  /** The first pass removes the quotes of its own keyword and of nothing else. */
  lemma {:induction false} FirstPass(items: seq<(string, string)>, rest: string, hi: string, lo: string)
    requires KeywordPair(hi, lo) && DirectionItems(items, hi, lo) && '\'' !in rest
    ensures ReplaceQuoted(Quoted(items) + rest, hi) == HalfBare(items, hi) + rest
    decreases |items|
  {
    if items == [] {
      assert Quoted(items) + rest == rest && HalfBare(items, hi) + rest == rest;
      ReplaceQuotedNoQuote(rest, hi);
    } else {
      var tail := items[1..];
      DirectionItemsTail(items, hi, lo);
      var after := Quoted(tail) + rest;
      FirstPass(tail, rest, hi, lo);
      NoMatchAfter(tail, rest, hi, lo);
      FirstPassStep(items[0], after, HalfBare(tail, hi) + rest, hi, lo);
      Regroup2(QuotedPiece(items[0]), Quoted(tail), rest);
      Regroup2(HalfPiece(items[0], hi), HalfBare(tail, hi), rest);
    }
  }

  /** The second pass over one piece. */
  lemma SecondPassStep(item: (string, string), after: string, r: string, hi: string, lo: string)
    requires KeywordPair(hi, lo) && DirectionItem(item, hi, lo) && ReplaceQuoted(after, lo) == r
    ensures ReplaceQuoted(HalfPiece(item, hi) + after, lo) == BarePiece(item, hi, lo) + r
  {
    var (pre, v) := item;
    if EqualsIgnoreCase(v, hi) {
      assert '\'' !in pre + hi;
      ReplaceQuotedPrefix(pre + hi, after, lo);
    } else {
      Regroup(pre, v, after);
      ReplaceQuotedPrefix(pre, "'" + v + "'" + after, lo);
      ReplaceQuotedHit(v, lo, after);
      Regroup2(pre, lo, r);
    }
  }

  /** The second pass then removes the quotes of every remaining keyword. */
  lemma {:induction false} SecondPass(items: seq<(string, string)>, rest: string, hi: string, lo: string)
    requires KeywordPair(hi, lo) && DirectionItems(items, hi, lo) && '\'' !in rest
    ensures ReplaceQuoted(HalfBare(items, hi) + rest, lo) == Bare(items, hi, lo) + rest
    decreases |items|
  {
    if items == [] {
      assert HalfBare(items, hi) + rest == rest && Bare(items, hi, lo) + rest == rest;
      ReplaceQuotedNoQuote(rest, lo);
    } else {
      var tail := items[1..];
      DirectionItemsTail(items, hi, lo);
      var after := HalfBare(tail, hi) + rest;
      SecondPass(tail, rest, hi, lo);
      SecondPassStep(items[0], after, Bare(tail, hi, lo) + rest, hi, lo);
      Regroup2(HalfPiece(items[0], hi), HalfBare(tail, hi), rest);
      Regroup2(BarePiece(items[0], hi, lo), Bare(tail, hi, lo), rest);
    }
  }
}

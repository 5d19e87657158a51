// The rendering helpers of src/lib/utils.ts: named-placeholder formatting,
// condition and update rendering, the LIMIT clause and the segment joiner,
// together with the template formatter both builders share.

module Utils {
  import opened Text
  import opened Values

  // ---------------------------------------------------------------------------
  // Template values and `format`

  /** The optional second argument of `format`: absent, an array, or an object. */
  datatype Args = NoArgs | Positional(list: seq<Value>) | Named(record: Record)

  /** The first argument of `and`/`where`: a template string or a condition object. */
  datatype Condition = CondText(tpl: string) | CondMap(record: Record)

  /** `values || []`: a missing argument becomes an empty array. */
  function OrEmpty(args: Args): (r: Args)
    ensures r != NoArgs
    ensures args.NoArgs? ==> r == Positional([])
    ensures args != NoArgs ==> r == args
  {
    if args.NoArgs? then Positional([]) else args
  }

  /**
   * `format(tpl, values)`: without values the template is returned as it is,
   * an array goes to the positional formatter, an object to the named one.
   */
  function Format(p: Provider, tpl: string, args: Args): (r: Result<string>)
    ensures args.NoArgs? ==> r == Ok(tpl)
    ensures args.Named? && ':' !in tpl ==> r == Ok(tpl)
    ensures args.Named? ==> r.Ok?
  {
    match args
    case NoArgs => Ok(tpl)
    case Positional(list) => p.format(tpl, list)
    case Named(record) =>
      var r := SqlFormatObject(p, tpl, Some(record), false);
      assert ':' !in tpl ==> r == tpl by {
        if ':' !in tpl { FormatNamedNoColon(p, tpl, record, false); }
      }
      Ok(r)
  }

  // ---------------------------------------------------------------------------
  // sqlFormatObject: the placeholders /:((:)?[\w$]+)/g

  /** `[\w$]` */
  predicate IsWordChar(c: char)
  {
    ('a' <= c <= 'z') || ('A' <= c <= 'Z') || ('0' <= c <= '9') || c == '_' || c == '$'
  }

  /** Length of the longest run of word characters at the start of `s`. */
  function WordRun(s: string): (n: nat)
    ensures n <= |s|
    ensures forall k :: 0 <= k < n ==> IsWordChar(s[k])
    ensures n == |s| || !IsWordChar(s[n])
  {
    if s != [] && IsWordChar(s[0]) then 1 + WordRun(s[1..]) else 0
  }

  /** A placeholder match: `::key` (an identifier) or `:key`, `len` characters long. */
  datatype Token = Token(isId: bool, key: string, len: nat)

  /** The token whose key is the run of word characters starting at offset `m` of `s`. */
  function TokenFrom(s: string, m: nat, isId: bool): (t: Token)
    requires m < |s| && IsWordChar(s[m])
    ensures t.isId == isId && m < t.len <= |s| && t.key == s[m..t.len]
    ensures t.len == |s| || !IsWordChar(s[t.len])
    ensures forall k :: 0 <= k < |t.key| ==> IsWordChar(t.key[k])
  {
    var n := WordRun(s[m..]);
    assert forall k :: 0 <= k < n ==> s[m..m + n][k] == s[m..][k];
    Token(isId, s[m..m + n], m + n)
  }

  /**
   * The placeholder the pattern matches at the very start of `s`, if any. The
   * optional second colon is tried first; when no word character follows it the
   * pattern cannot match at this position at all.
   */
  function TokenAt(s: string): (t: Option<Token>)
    ensures t.Some? ==> 2 <= t.value.len <= |s| && t.value.key != []
    ensures t.Some? ==> s[..t.value.len] == (if t.value.isId then "::" else ":") + t.value.key
    ensures t.Some? ==> t.value.len == |s| || !IsWordChar(s[t.value.len])
    ensures t.Some? ==> forall k :: 0 <= k < |t.value.key| ==> IsWordChar(t.value.key[k])
    ensures t.None? ==> s == [] || s[0] != ':' || !(|s| >= 2 && IsWordChar(s[1]))
    ensures t.None? ==> !(|s| >= 3 && s[0] == ':' && s[1] == ':' && IsWordChar(s[2]))
  {
    if |s| >= 3 && s[0] == ':' && s[1] == ':' && IsWordChar(s[2]) then
      var t := TokenFrom(s, 2, true);
      assert s[..t.len] == s[..2] + t.key;
      Some(t)
    else if |s| >= 2 && s[0] == ':' && IsWordChar(s[1]) then
      var t := TokenFrom(s, 1, false);
      assert s[..t.len] == s[..1] + t.key;
      Some(t)
    else None
  }

  /** What a matched placeholder is replaced with. */
  function Replacement(p: Provider, t: Token, txt: string, values: Record, raw: bool): string
  {
    if HasKey(values, t.key) then
      var v := Lookup(values, t.key);
      if raw then ToText(v) else if t.isId then p.escapeId(v) else p.escape(v)
    else txt
  }

  /** `s.replace(/:((:)?[\w$]+)/g, ...)`: left to right, each match replaced, the text after it scanned next. */
  function FormatNamed(p: Provider, s: string, values: Record, raw: bool): string
    decreases |s|
  {
    match TokenAt(s)
    case None => if s == [] then [] else [s[0]] + FormatNamed(p, s[1..], values, raw)
    case Some(t) => Replacement(p, t, s[..t.len], values, raw) + FormatNamed(p, s[t.len..], values, raw)
  }

  /** `sqlFormatObject(sql, values, disable$)`; missing values count as an empty object. */
  function SqlFormatObject(p: Provider, sql: string, values: Option<Record>, raw: bool): string
  {
    FormatNamed(p, sql, if values.Some? then values.value else [], raw)
  }

  /** Text without a colon has no placeholder and is returned unchanged. */
  lemma {:induction false} FormatNamedNoColon(p: Provider, s: string, values: Record, raw: bool)
    requires ':' !in s
    ensures FormatNamed(p, s, values, raw) == s
    decreases |s|
  {
    if s != [] {
      assert ':' !in s[1..] by {
        forall k | 0 <= k < |s| - 1 ensures s[1..][k] != ':' { assert s[1..][k] == s[k + 1]; }
      }
      FormatNamedNoColon(p, s[1..], values, raw);
    }
  }

  /** With no values (or missing ones) every placeholder is left verbatim. */
  lemma {:induction false} FormatNamedNoValues(p: Provider, s: string, raw: bool)
    ensures SqlFormatObject(p, s, None, raw) == s
    ensures SqlFormatObject(p, s, Some([]), raw) == s
    decreases |s|
  {
    match TokenAt(s)
    case None =>
      if s != [] {
        FormatNamedNoValues(p, s[1..], raw);
      }
    case Some(t) =>
      FormatNamedNoValues(p, s[t.len..], raw);
      assert s == s[..t.len] + s[t.len..];
  }

  /** A character other than a colon is copied and the scan moves on. */
  lemma FormatNamedCons(p: Provider, c: char, rest: string, values: Record, raw: bool)
    requires c != ':'
    ensures FormatNamed(p, [c] + rest, values, raw) == [c] + FormatNamed(p, rest, values, raw)
  {
    var w := [c] + rest;
    assert TokenAt(w).None?;
    assert w[1..] == rest;
  }

  /** Text without a colon in front of the rest passes through untouched. */
  lemma {:induction false} FormatNamedPrefix(p: Provider, pre: string, s: string, values: Record, raw: bool)
    requires ':' !in pre
    ensures FormatNamed(p, pre + s, values, raw) == pre + FormatNamed(p, s, values, raw)
    decreases |pre|
  {
    if pre != [] {
      var tail := pre[1..];
      assert pre == [pre[0]] + tail;
      assert pre + s == [pre[0]] + (tail + s);
      assert ':' !in tail by {
        forall k | 0 <= k < |tail| ensures tail[k] != ':' { assert tail[k] == pre[k + 1]; }
      }
      FormatNamedCons(p, pre[0], tail + s, values, raw);
      FormatNamedPrefix(p, tail, s, values, raw);
    } else {
      assert pre + s == s;
    }
  }

  /** A name made of word characters only. */
  predicate IsWord(key: string)
  {
    key != [] && forall k :: 0 <= k < |key| ==> IsWordChar(key[k])
  }

  /** The placeholder ends where the word does: the next character is not a word character. */
  predicate EndsWord(post: string)
  {
    post == [] || !IsWordChar(post[0])
  }

  lemma WordRunOf(key: string, post: string)
    requires IsWord(key) && EndsWord(post)
    ensures WordRun(key + post) == |key|
    decreases |key|
  {
    if |key| > 1 {
      assert (key + post)[1..] == key[1..] + post;
      WordRunOf(key[1..], post);
    } else {
      assert (key + post)[1..] == post;
    }
  }

  /** `:key`: escaped value, raw value, or left verbatim when the key is absent. */
  lemma PlainPlaceholder(p: Provider, key: string, post: string, values: Record, raw: bool)
    requires IsWord(key) && EndsWord(post)
    ensures var r := FormatNamed(p, ":" + key + post, values, raw);
      var rest := FormatNamed(p, post, values, raw);
      && (HasKey(values, key) && raw ==> r == ToText(Lookup(values, key)) + rest)
      && (HasKey(values, key) && !raw ==> r == p.escape(Lookup(values, key)) + rest)
      && (!HasKey(values, key) ==> r == ":" + key + rest)
  {
    var s := ":" + key + post;
    assert s[1..] == key + post;
    WordRunOf(key, post);
    assert s[1..1 + |key|] == key;
    assert s[1 + |key|..] == post;
    assert s[..1 + |key|] == ":" + key;
  }

  /** `::key`: escaped identifier, raw value, or left verbatim when the key is absent. */
  lemma IdPlaceholder(p: Provider, key: string, post: string, values: Record, raw: bool)
    requires IsWord(key) && EndsWord(post)
    ensures var r := FormatNamed(p, "::" + key + post, values, raw);
      var rest := FormatNamed(p, post, values, raw);
      && (HasKey(values, key) && raw ==> r == ToText(Lookup(values, key)) + rest)
      && (HasKey(values, key) && !raw ==> r == p.escapeId(Lookup(values, key)) + rest)
      && (!HasKey(values, key) ==> r == "::" + key + rest)
  {
    var s := "::" + key + post;
    assert s[2..] == key + post;
    WordRunOf(key, post);
    assert s[2..2 + |key|] == key;
    assert s[2 + |key|..] == post;
    assert s[..2 + |key|] == "::" + key;
  }

  /** `:::key`: the pattern cannot start at the first colon, so it is copied and `::key` follows. */
  lemma TripleColon(p: Provider, key: string, post: string, values: Record, raw: bool)
    requires IsWord(key)
    ensures FormatNamed(p, ":::" + key + post, values, raw) == ":" + FormatNamed(p, "::" + key + post, values, raw)
  {
    var s := ":::" + key + post;
    assert s[1..] == "::" + key + post;
    assert TokenAt(s).None?;
  }

  // ---------------------------------------------------------------------------
  // Mapping a list element by element, stopping at the first error

  /**
   * `xs.map(f)` where `f` may throw: the list of results when every entry
   * succeeds, otherwise the error of the first entry that fails.
   */
  function MapResult<T>(f: T -> Result<string>, xs: seq<T>): (r: Result<seq<string>>)
    ensures r.Ok? <==> forall i :: 0 <= i < |xs| ==> f(xs[i]).Ok?
    ensures r.Ok? ==> |r.value| == |xs| && forall i :: 0 <= i < |xs| ==> r.value[i] == f(xs[i]).value
    ensures r.Err? ==> exists i :: 0 <= i < |xs| && f(xs[i]) == Err(r.error) && forall j :: 0 <= j < i ==> f(xs[j]).Ok?
    decreases |xs|
  {
    if xs == [] then Ok([])
    else
      var last := xs[|xs| - 1];
      var prefix := xs[..|xs| - 1];
      assert forall i :: 0 <= i < |prefix| ==> prefix[i] == xs[i];
      match MapResult(f, prefix)
      case Err(e) => Err(e)
      case Ok(done) =>
        match f(last)
        case Err(e) => Err(e)
        case Ok(s) => Ok(done + [s])
  }

  /** Once a prefix fails, the whole list fails with the same error. */
  lemma {:induction false} MapResultPrefixErr<T>(f: T -> Result<string>, xs: seq<T>, n: nat)
    requires n <= |xs| && MapResult(f, xs[..n]).Err?
    ensures MapResult(f, xs) == MapResult(f, xs[..n])
    decreases |xs|
  {
    if n == |xs| {
      assert xs[..n] == xs;
    } else {
      var init := xs[..|xs| - 1];
      assert init[..n] == xs[..n];
      MapResultPrefixErr(f, init, n);
    }
  }

  // ---------------------------------------------------------------------------
  // sqlConditionStrings and sqlUpdateString

  /**
   * The operator of a condition or update value: a non-null object or array
   * with exactly one key yields that key and its value.
   */
  function OperatorOf(v: Value): (r: Option<(string, Value)>)
    ensures r.Some? ==> v.Obj? || v.Arr?
  {
    match v
    case Obj(fields) => if |fields| == 1 then Some(fields[0]) else None
    case Arr(items) => if |items| == 1 then Some(("0", items[0])) else None
    case _ => None
  }

  /** Each element escaped, for `$in`. */
  function EscapeAll(p: Provider, items: seq<Value>): (r: seq<string>)
    ensures |r| == |items| && forall i :: 0 <= i < |items| ==> r[i] == p.escape(items[i])
  {
    seq(|items|, i requires 0 <= i < |items| => p.escape(items[i]))
  }

  /** The predicate one condition entry renders to. */
  function ConditionPredicate(p: Provider, name: string, v: Value): (r: Result<string>)
    ensures r.Err? <==> (OperatorOf(v).Some? &&
      var (op, arg) := OperatorOf(v).value;
      !((op == "$in" && arg.Arr?) || (op == "$like" && arg.Str?)))
    ensures r.Ok? ==> StartsWith(r.value, EscapeName(p, name))
  {
    var e := EscapeName(p, name);
    match OperatorOf(v)
    case None => Ok(e + "=" + p.escape(v))
    case Some((op, arg)) =>
      if op == "$in" then
        if arg.Arr? then Ok(e + " IN (" + Join(EscapeAll(p, arg.items), ", ") + ")") else Err(InNotArray(name))
      else if op == "$like" then
        if arg.Str? then Ok(e + " LIKE " + p.escape(arg)) else Err(LikeNotString(name))
      else Err(UnsupportedCondition(op))
  }

  function ConditionOf(p: Provider): ((string, Value)) -> Result<string>
  {
    (e: (string, Value)) => ConditionPredicate(p, e.0, e.1)
  }

  /** `sqlConditionStrings(condition)` as a value: one predicate per key, in key order. */
  function ConditionStrings(p: Provider, condition: Record): Result<seq<string>>
  {
    MapResult(ConditionOf(p), condition)
  }

  /** `sqlConditionStrings(condition)`: the `for ... in` loop that pushes one predicate per key. */
  method SqlConditionStrings(p: Provider, condition: Record) returns (r: Result<seq<string>>)
    ensures r == ConditionStrings(p, condition)
  {
    var ret: seq<string> := [];
    for i := 0 to |condition|
      invariant MapResult(ConditionOf(p), condition[..i]) == Ok(ret)
    {
      var (name, info) := condition[i];
      var s := ConditionPredicate(p, name, info);
      assert condition[..i + 1][..i] == condition[..i];
      if s.Err? {
        MapResultPrefixErr(ConditionOf(p), condition, i + 1);
        return Err(s.error);
      }
      ret := ret + [s.value];
    }
    assert condition[..|condition|] == condition;
    r := Ok(ret);
  }

  /** The assignment one update entry renders to. */
  function Assignment(p: Provider, name: string, v: Value): (r: Result<string>)
    ensures r.Err? <==> OperatorOf(v).Some? && OperatorOf(v).value.0 != "$incr"
    ensures r.Ok? ==> StartsWith(r.value, EscapeName(p, name) + "=")
  {
    var e := EscapeName(p, name);
    match OperatorOf(v)
    case None => Ok(e + "=" + p.escape(v))
    case Some((op, arg)) =>
      if op == "$incr" then Ok(e + "=" + e + "+" + p.escape(arg)) else Err(UnsupportedUpdate(op))
  }

  function AssignmentOf(p: Provider): ((string, Value)) -> Result<string>
  {
    (e: (string, Value)) => Assignment(p, e.0, e.1)
  }

  /** `sqlUpdateString(data)`: the assignments joined with ", ". */
  function SqlUpdateString(p: Provider, data: Record): (r: Result<string>)
    ensures r.Ok? <==> forall i :: 0 <= i < |data| ==> Assignment(p, data[i].0, data[i].1).Ok?
    ensures r.Ok? ==> (r.value == "" <==> data == [])
    ensures r.Err? ==>
      exists i :: 0 <= i < |data| && Assignment(p, data[i].0, data[i].1) == Err(r.error) &&
        (forall j :: 0 <= j < i ==> Assignment(p, data[j].0, data[j].1).Ok?)
  {
    var m := MapResult(AssignmentOf(p), data);
    if m.Err? then
      Err(m.error)
    else
      assert forall i :: 0 <= i < |m.value| ==> m.value[i] != [] by {
        forall i | 0 <= i < |m.value| ensures m.value[i] != [] {
          assert StartsWith(m.value[i], EscapeName(p, data[i].0) + "=");
        }
      }
      JoinNonEmpty(m.value, ", ");
      Ok(Join(m.value, ", "))
  }

  // ---------------------------------------------------------------------------
  // sqlLimitString

  /** The row count written when only an offset is given: 2^64 - 1, written out in decimal. */
  const MaxRows: nat := 18446744073709551615

  /** `sqlLimitString(skip, limit)` */
  function SqlLimitString(skip: nat, limit: nat): (r: string)
    ensures StartsWith(r, "LIMIT ")
  {
    if limit > 0 then
      if skip > 0 then "LIMIT " + NatToString(skip) + "," + NatToString(limit)
      else "LIMIT " + NatToString(limit)
    else "LIMIT " + NatToString(skip) + "," + NatToString(MaxRows)
  }

  /** Reads a LIMIT clause back into (offset, row count); a clause without an offset has offset 0. */
  function ParseLimit(s: string): Option<(nat, nat)>
  {
    if !StartsWith(s, "LIMIT ") then None
    else
      var body := s[6..];
      if ',' in body then
        var c := IndexOf(body, ',');
        match (ParseNat(body[..c]), ParseNat(body[c + 1..]))
        case (Some(a), Some(b)) => Some((a, b))
        case _ => None
      else
        match ParseNat(body)
        case Some(b) => Some((0, b))
        case None => None
  }

  /** "LIMIT " + a + "," + b reads back as (a, b). */
  lemma ParsePair(a: nat, b: string, bv: nat)
    requires ParseNat(b) == Some(bv)
    ensures ParseLimit("LIMIT " + NatToString(a) + "," + b) == Some((a, bv))
  {
    var s := "LIMIT " + NatToString(a) + "," + b;
    var x := NatToString(a);
    assert s[..6] == "LIMIT ";
    var body := s[6..];
    assert body == x + "," + b;
    assert body[|x|] == ',';
    assert ',' !in x;
    assert body[..|x|] == x;
    assert IndexOf(body, ',') == |x|;
    assert body[|x| + 1..] == b;
    ParseNatToString(a);
  }

  /**
   * The clause determines the offset and the row count: reading it back gives
   * them, with a zero row count standing for 2^64 - 1 rows.
   */
  lemma SqlLimitStringRoundTrip(skip: nat, limit: nat)
    ensures ParseLimit(SqlLimitString(skip, limit)) == Some((skip, if limit > 0 then limit else MaxRows))
  {
    if limit > 0 {
      ParseNatToString(limit);
      if skip > 0 {
        ParsePair(skip, NatToString(limit), limit);
      } else {
        var s := SqlLimitString(skip, limit);
        assert s[..6] == "LIMIT ";
        assert s[6..] == NatToString(limit);
        assert ',' !in NatToString(limit);
      }
    } else {
      ParseNatToString(MaxRows);
      ParsePair(skip, NatToString(MaxRows), MaxRows);
    }
  }

  // ---------------------------------------------------------------------------
  // joinMultiString

  /** A segment that survives `trim()` and the filter as it is. */
  predicate Solid(x: string)
  {
    x != [] && Clean(x)
  }

  /** What one segment contributes after trimming and filtering. */
  function Kept(s: string): (r: seq<string>)
    ensures |r| <= 1 && forall i :: 0 <= i < |r| ==> Solid(r[i])
    ensures r == [] <==> AllSpace(s)
  {
    var t := Trim(s);
    if t == [] then [] else [t]
  }

  /** The pieces each segment contributes, concatenated in order. */
  function Gather(keep: string -> seq<string>, strs: seq<string>): seq<string>
    decreases |strs|
  {
    if strs == [] then [] else Gather(keep, strs[..|strs| - 1]) + keep(strs[|strs| - 1])
  }

  lemma {:induction false} GatherAppend(keep: string -> seq<string>, a: seq<string>, b: seq<string>)
    ensures Gather(keep, a + b) == Gather(keep, a) + Gather(keep, b)
    decreases |b|
  {
    if b == [] {
      assert a + b == a;
    } else {
      var c, b', last := a + b, b[..|b| - 1], b[|b| - 1];
      assert c[..|c| - 1] == a + b' && c[|c| - 1] == last;
      GatherAppend(keep, a, b');
      Regroup2(Gather(keep, a), Gather(keep, b'), keep(last));
    }
  }

  /** `strs.map(v => v.trim()).filter(v => v)` */
  function TrimmedNonBlank(strs: seq<string>): (r: seq<string>)
    ensures forall i :: 0 <= i < |r| ==> Solid(r[i])
    decreases |strs|
  {
    var r := Gather(Kept, strs);
    assert forall i :: 0 <= i < |r| ==> Solid(r[i]) by {
      GatherSolid(strs);
    }
    r
  }

  lemma {:induction false} GatherSolid(strs: seq<string>)
    ensures forall i :: 0 <= i < |Gather(Kept, strs)| ==> Solid(Gather(Kept, strs)[i])
    decreases |strs|
  {
    if strs != [] {
      GatherSolid(strs[..|strs| - 1]);
      var init := Gather(Kept, strs[..|strs| - 1]);
      var k := Kept(strs[|strs| - 1]);
      assert Gather(Kept, strs) == init + k;
      forall i | 0 <= i < |init + k| ensures Solid((init + k)[i]) {
        if i < |init| { assert (init + k)[i] == init[i]; } else { assert (init + k)[i] == k[i - |init|]; }
      }
    }
  }

  /** `joinMultiString(...strs)` */
  function JoinMultiString(strs: seq<string>): string
  {
    Join(TrimmedNonBlank(strs), " ")
  }

  /** The filter distributes over concatenation. */
  lemma TrimmedNonBlankAppend(a: seq<string>, b: seq<string>)
    ensures TrimmedNonBlank(a + b) == TrimmedNonBlank(a) + TrimmedNonBlank(b)
  {
    GatherAppend(Kept, a, b);
  }

  /** Pieces that are already trimmed and non-empty pass the filter unchanged. */
  lemma {:induction false} TrimmedNonBlankClean(strs: seq<string>)
    requires forall i :: 0 <= i < |strs| ==> Solid(strs[i])
    ensures TrimmedNonBlank(strs) == strs
    decreases |strs|
  {
    if strs != [] {
      var x := strs[|strs| - 1];
      TrimClean(x);
      assert Kept(x) == [x];
      TrimmedNonBlankClean(strs[..|strs| - 1]);
      assert strs == strs[..|strs| - 1] + [x];
    }
  }

  /** The joined text is trimmed: it neither starts nor ends with a space. */
  lemma JoinMultiStringClean(strs: seq<string>)
    ensures Clean(JoinMultiString(strs))
  {
    var parts := TrimmedNonBlank(strs);
    if parts != [] {
      JoinEnds(parts, " ");
      var j := Join(parts, " ");
      var last := parts[|parts| - 1];
      assert j[0] == parts[0][0];
      assert j[|j| - 1] == last[|last| - 1];
    }
  }

  /** Empty and blank segments contribute nothing, wherever they stand. */
  lemma JoinMultiStringBlank(a: seq<string>, x: string, b: seq<string>)
    requires AllSpace(x)
    ensures JoinMultiString(a + [x] + b) == JoinMultiString(a + b)
  {
    TrimmedNonBlankOne(x);
    TrimmedNonBlankAppend(a, [x]);
    assert TrimmedNonBlank(a + [x]) == TrimmedNonBlank(a);
    TrimmedNonBlankAppend(a + [x], b);
    TrimmedNonBlankAppend(a, b);
    assert TrimmedNonBlank(a + [x] + b) == TrimmedNonBlank(a + b);
  }

  /** A single segment contributes its trimmed text, or nothing when it is blank. */
  lemma TrimmedNonBlankOne(x: string)
    ensures TrimmedNonBlank([x]) == Kept(x)
  {
    assert [x][..0] == [];
    assert Gather(Kept, [x]) == Gather(Kept, []) + Kept(x);
  }

  /** Every segment is blank. */
  predicate AllBlank(strs: seq<string>)
  {
    forall i :: 0 <= i < |strs| ==> AllSpace(strs[i])
  }

  lemma AllBlankSnoc(strs: seq<string>)
    requires strs != []
    ensures AllBlank(strs) <==> AllBlank(strs[..|strs| - 1]) && AllSpace(strs[|strs| - 1])
  {
    var init := strs[..|strs| - 1];
    assert forall i :: 0 <= i < |init| ==> init[i] == strs[i];
  }

  /** Nothing survives trimming and filtering exactly when every segment is blank. */
  lemma {:induction false} TrimmedNonBlankEmpty(strs: seq<string>)
    ensures TrimmedNonBlank(strs) == [] <==> AllBlank(strs)
    decreases |strs|
  {
    if strs != [] {
      var init := strs[..|strs| - 1];
      TrimmedNonBlankEmpty(init);
      AllBlankSnoc(strs);
      assert TrimmedNonBlank(strs) == TrimmedNonBlank(init) + Kept(strs[|strs| - 1]);
    }
  }

  /** The result is empty exactly when every segment is blank. */
  lemma JoinMultiStringEmpty(strs: seq<string>)
    ensures JoinMultiString(strs) == [] <==> AllBlank(strs)
  {
    JoinNonEmpty(TrimmedNonBlank(strs), " ");
    TrimmedNonBlankEmpty(strs);
  }

  /** Joining an already joined text again changes nothing. */
  lemma JoinMultiStringIdempotent(strs: seq<string>)
    ensures JoinMultiString([JoinMultiString(strs)]) == JoinMultiString(strs)
  {
    var j := JoinMultiString(strs);
    JoinMultiStringClean(strs);
    TrimClean(j);
    TrimmedNonBlankOne(j);
  }
}

// The condition expression of src/lib/expr.ts: a string that grows by one
// connector and one rendered condition per `and`/`or` call, and that `build`
// trims, strips of its leading connector and wraps in parentheses.

module Expr {
  import opened Text
  import opened Values
  import opened Utils

  /** The connectors `and` and `or` pass to `combineCondition`. */
  datatype Connector = AndConnector | OrConnector

  function ConnectorWord(c: Connector): (w: string)
    ensures w != [] && !IsSpace(w[0])
  {
    match c
    case AndConnector => "AND"
    case OrConnector => "OR"
  }

  /**
   * The text one call appends after its connector: a template formatted with
   * `values || []`, or a condition object rendered by `sqlConditionStrings`
   * and pasted into the text, which joins its predicates with ",".
   */
  function Fragment(p: Provider, c: Condition, args: Args): (r: Result<string>)
    ensures r.Err? <==>
      c == CondText("") ||
      (c.CondText? && c.tpl != "" && Format(p, c.tpl, OrEmpty(args)).Err?) ||
      (c.CondMap? && (p.undefinedKeys(c.record) != [] ||
        exists i :: 0 <= i < |c.record| && ConditionPredicate(p, c.record[i].0, c.record[i].1).Err?))
    ensures c == CondText("") ==> r == Err(MissingCondition)
    ensures c.CondMap? && p.undefinedKeys(c.record) != [] ==> r == Err(UndefinedConditionKeys(p.undefinedKeys(c.record)))
    ensures c.CondMap? && ReportsUndefined(p, c.record) && !NoUndefined(c.record) ==>
      r == Err(UndefinedConditionKeys(p.undefinedKeys(c.record)))
    ensures c.CondMap? && r.Ok? && c.record == [] ==> r.value == ""
    ensures c.CondMap? && r.Ok? && c.record != [] ==> StartsWith(r.value, EscapeName(p, c.record[0].0))
  {
    match c
    case CondText(tpl) =>
      if tpl == "" then Err(MissingCondition) else Format(p, tpl, OrEmpty(args))
    case CondMap(record) =>
      var keys := p.undefinedKeys(record);
      if |keys| >= 1 then Err(UndefinedConditionKeys(keys))
      else
        match ConditionStrings(p, record)
        case Ok(strs) => FragmentHead(p, record, strs); Ok(Join(strs, ","))
        case Err(e) => Err(e)
  }

  /** A rendered condition object begins with its first key, escaped. */
  lemma FragmentHead(p: Provider, record: Record, strs: seq<string>)
    requires ConditionStrings(p, record) == Ok(strs)
    ensures record != [] ==> StartsWith(Join(strs, ","), EscapeName(p, record[0].0))
  {
    if record != [] {
      var name := EscapeName(p, record[0].0);
      assert strs[0] == ConditionPredicate(p, record[0].0, record[0].1).value;
      JoinEnds(strs, ",");
      assert Join(strs, ",")[..|name|] == strs[0][..|name|];
    }
  }

  /** What one successful call appends: a space, the connector, a space, the fragment. */
  function Piece(part: (Connector, string)): string
  {
    " " + ConnectorWord(part.0) + " " + part.1
  }

  /** The text a sequence of successful calls leaves behind, oldest call first. */
  function Chain(parts: seq<(Connector, string)>): string
    decreases |parts|
  {
    if parts == [] then "" else Chain(parts[..|parts| - 1]) + Piece(parts[|parts| - 1])
  }

  /** The chain unfolded from its oldest call. */
  lemma {:induction false} ChainCons(parts: seq<(Connector, string)>)
    requires |parts| >= 1
    ensures Chain(parts) == Piece(parts[0]) + Chain(parts[1..])
    decreases |parts|
  {
    var n := |parts|;
    if n == 1 {
      assert parts[..0] == [] && parts[1..] == [];
    } else {
      ChainCons(parts[..n - 1]);
      assert parts[..n - 1][1..] == parts[1..][..n - 2];
      assert parts[1..][n - 2] == parts[n - 1];
    }
  }

  /**
   * `build()` on the accumulated text: the trimmed text must not be empty; a
   * leading "AND " and then a leading "OR " are removed, and the rest is put
   * in parentheses.
   */
  function BuildExpression(s: string): (r: Result<string>)
    ensures r.Err? <==> AllSpace(s)
    ensures r.Err? ==> r.error == EmptyExpression
    ensures r.Ok? ==> |r.value| >= 2 && r.value[0] == '(' && r.value[|r.value| - 1] == ')'
    ensures r.Ok? ==> |r.value| <= |s| + 2
  {
    var t := Trim(s);
    if t == [] then Err(EmptyExpression)
    else
      var a := if StartsWith(t, "AND ") then t[4..] else t;
      var b := if StartsWith(a, "OR ") then a[3..] else a;
      Ok("(" + b + ")")
  }

  /** The conditions after the first connector: what `build` puts between the parentheses. */
  function Body(parts: seq<(Connector, string)>): string
    requires |parts| >= 1
  {
    parts[0].1 + Chain(parts[1..])
  }

  /**
   * At least one call, the last fragment ends in a non-space, and after an
   * opening "AND" the body does not itself start with "OR ".
   */
  predicate Buildable(parts: seq<(Connector, string)>)
  {
    && |parts| >= 1
    && (var f := parts[|parts| - 1].1; f != [] && !IsSpace(f[|f| - 1]))
    && (parts[0].0 == AndConnector ==> !StartsWith(Body(parts), "OR "))
  }

  /** The chain's text ends with the text of its last fragment. */
  lemma ChainEnd(parts: seq<(Connector, string)>)
    requires |parts| >= 1
    ensures var c, f := Chain(parts), parts[|parts| - 1].1; |f| <= |c| && c[|c| - |f|..] == f
  {
    var c := Chain(parts);
    var f := parts[|parts| - 1].1;
    var pre := Chain(parts[..|parts| - 1]) + " " + ConnectorWord(parts[|parts| - 1].0) + " ";
    assert c == pre + f;
    assert c[|pre|..] == f;
  }

  /** The body ends with the last fragment's last character. */
  lemma BodyEnd(parts: seq<(Connector, string)>)
    requires Buildable(parts)
    ensures var b, f := Body(parts), parts[|parts| - 1].1; b != [] && b[|b| - 1] == f[|f| - 1]
  {
    var f := parts[|parts| - 1].1;
    var c := Chain(parts[1..]);
    if |parts| >= 2 {
      ChainEnd(parts[1..]);
      assert c[|c| - 1] == f[|f| - 1];
    } else {
      assert parts[1..] == [];
    }
  }

  /** The chain's text is its first connector piece followed by the body. */
  lemma ChainHead(parts: seq<(Connector, string)>)
    requires |parts| >= 1
    ensures Chain(parts) == " " + ConnectorWord(parts[0].0) + " " + Body(parts)
  {
    ChainCons(parts);
  }

  /** Trimming a connector piece whose body ends in a non-space removes only the opening space. */
  lemma TrimPiece(c: string, w: string, b: string)
    requires c == " " + w + " " + b
    requires w != [] && !IsSpace(w[0])
    requires b != [] && !IsSpace(b[|b| - 1])
    ensures Trim(c) == w + " " + b
  {
    var t := w + " " + b;
    assert c == " " + t;
    assert t[0] == w[0];
    assert t[|t| - 1] == b[|b| - 1];
    TrimStartSpaces(" ", t);
    TrimEndClean(t);
  }

  /** A chain trims to its first connector, a space and its body. */
  lemma TrimChain(parts: seq<(Connector, string)>)
    requires Buildable(parts)
    ensures Trim(Chain(parts)) == ConnectorWord(parts[0].0) + " " + Body(parts)
  {
    ChainHead(parts);
    BodyEnd(parts);
    TrimPiece(Chain(parts), ConnectorWord(parts[0].0), Body(parts));
  }

  /**
   * Building a chain whose text ends in a non-space removes exactly the first
   * connector: `and(a).and(b)` builds "(a AND b)", and so does `or(a).and(b)`.
   * After an opening "AND" a body that itself starts with "OR " would lose that
   * too, which the second requirement excludes.
   */
  lemma BuildChain(parts: seq<(Connector, string)>)
    requires Buildable(parts)
    ensures BuildExpression(Chain(parts)) == Ok("(" + Body(parts) + ")")
  {
    TrimChain(parts);
    BuildTrimmed(Chain(parts), parts[0].0, Body(parts));
  }

  /** Building a text that trims to a connector, a space and a body gives the body in parentheses. */
  lemma BuildTrimmed(s: string, c: Connector, b: string)
    requires Trim(s) == ConnectorWord(c) + " " + b
    requires c == AndConnector ==> !StartsWith(b, "OR ")
    ensures BuildExpression(s) == Ok("(" + b + ")")
  {
    var t := ConnectorWord(c) + " " + b;
    if c == AndConnector {
      assert t[..4] == "AND ";
      assert t[4..] == b;
    } else {
      assert t[0] == 'O';
      assert t[..3] == "OR ";
      assert t[3..] == b;
    }
  }

  /** `class Expression`: a connector-separated condition text. */
  class Expression {
    const provider: Provider
    /** `_type`: which kind of expression the text holds; only "" and "condition" are ever written. */
    var exprType: string
    /** `_data` */
    var text: string
    /** The successful `and`/`or` calls so far, as connector and fragment. */
    ghost var parts: seq<(Connector, string)>

    ghost predicate Valid()
      reads this
    {
      text == Chain(parts)
    }

    constructor (p: Provider)
      ensures Valid()
      ensures provider == p && exprType == "" && text == "" && parts == []
    {
      provider := p;
      exprType := "";
      text := "";
      parts := [];
    }

    /** `format(tpl, values)` */
    function FormatTemplate(tpl: string, args: Args): (r: Result<string>)
      ensures args.NoArgs? ==> r == Ok(tpl)
      ensures args.Named? ==> r.Ok?
    {
      Format(provider, tpl, args)
    }

    /**
     * `combineCondition(connector, condition, values)`: refuses a text that
     * holds another kind of expression and a missing condition, appends the
     * connector and the fragment, and marks the text as a condition. A throw
     * leaves everything as it was.
     */
    method CombineCondition(connector: Connector, c: Condition, args: Args) returns (o: Outcome)
      requires Valid()
      modifies this
      ensures Valid()
      ensures old(exprType) != "" && old(exprType) != "condition" ==> o == Fail(ExpressionTypeChanged(old(exprType)))
      ensures (old(exprType) == "" || old(exprType) == "condition") ==>
        match Fragment(provider, c, args)
        case Err(e) => o == Fail(e)
        case Ok(f) => o == Pass && parts == old(parts) + [(connector, f)]
      ensures o.Fail? ==> exprType == old(exprType) && text == old(text) && parts == old(parts)
      ensures o.Pass? ==> exprType == "condition" && text == old(text) + Piece(parts[|parts| - 1])
    {
      if exprType != "" && exprType != "condition" {
        return Fail(ExpressionTypeChanged(exprType));
      }
      var f: string;
      match c {
        case CondText(tpl) =>
          if tpl == "" {
            return Fail(MissingCondition);
          }
          var s := Format(provider, tpl, OrEmpty(args));
          if s.Err? {
            return Fail(s.error);
          }
          f := s.value;
        case CondMap(record) =>
          var keys := provider.undefinedKeys(record);
          if |keys| >= 1 {
            return Fail(UndefinedConditionKeys(keys));
          }
          var strs := SqlConditionStrings(provider, record);
          if strs.Err? {
            return Fail(strs.error);
          }
          f := Join(strs.value, ",");
      }
      var part := (connector, f);
      assert (parts + [part])[..|parts|] == parts;
      text := text + Piece(part);
      parts := parts + [part];
      exprType := "condition";
      o := Pass;
    }

    /** `and(condition, values)` */
    method And(c: Condition, args: Args) returns (o: Outcome)
      requires Valid()
      modifies this
      ensures Valid()
      ensures old(exprType) != "" && old(exprType) != "condition" ==> o == Fail(ExpressionTypeChanged(old(exprType)))
      ensures (old(exprType) == "" || old(exprType) == "condition") ==>
        match Fragment(provider, c, args)
        case Err(e) => o == Fail(e)
        case Ok(f) => o == Pass && parts == old(parts) + [(AndConnector, f)]
      ensures o.Fail? ==> exprType == old(exprType) && text == old(text) && parts == old(parts)
      ensures o.Pass? ==> exprType == "condition" && text == old(text) + Piece(parts[|parts| - 1])
    {
      o := CombineCondition(AndConnector, c, args);
    }

    /** `or(condition, values)` */
    method Or(c: Condition, args: Args) returns (o: Outcome)
      requires Valid()
      modifies this
      ensures Valid()
      ensures old(exprType) != "" && old(exprType) != "condition" ==> o == Fail(ExpressionTypeChanged(old(exprType)))
      ensures (old(exprType) == "" || old(exprType) == "condition") ==>
        match Fragment(provider, c, args)
        case Err(e) => o == Fail(e)
        case Ok(f) => o == Pass && parts == old(parts) + [(OrConnector, f)]
      ensures o.Fail? ==> exprType == old(exprType) && text == old(text) && parts == old(parts)
      ensures o.Pass? ==> exprType == "condition" && text == old(text) + Piece(parts[|parts| - 1])
    {
      o := CombineCondition(OrConnector, c, args);
    }

    /** `build()`: reads the text and changes nothing, so building twice gives the same statement. */
    function Build(): (r: Result<string>)
      reads this
      ensures r.Err? <==> AllSpace(text)
      ensures Valid() && Buildable(parts) ==> r == Ok("(" + Body(parts) + ")")
    {
      BuildState(text, parts);
      BuildExpression(text)
    }
  }

  /** BuildChain for a text that is known to be a chain. */
  lemma BuildState(text: string, parts: seq<(Connector, string)>)
    ensures text == Chain(parts) && Buildable(parts) ==> BuildExpression(text) == Ok("(" + Body(parts) + ")")
  {
    if text == Chain(parts) && Buildable(parts) {
      BuildChain(parts);
    }
  }
}

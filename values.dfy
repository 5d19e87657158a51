// The values the statement builder receives from its callers, the errors it
// raises, and the escaping primitives it delegates to.

module Values {
  import opened Text

  datatype Option<T> = None | Some(value: T)

  /** The conditions under which the builder throws, one constructor per assertion or `throw`. */
  datatype Error =
    | TableAlreadySet
    | AliasRegistered(name: string)
    | MissingJoin
    | JoinOnRegistered(on: string)
    | MissingCondition
    | EmptyModifyCondition
    | UndefinedConditionKeys(keys: seq<string>)
    | KindAlreadySet(kind: string)
    | FieldsAlreadySet
    | EmptyFieldName
    | NotUpdateKind
    | MissingUpdateData
    | UnsupportedUpdate(op: string)
    | EmptyInsert
    | MissingInsertField(field: string)
    | NotInsertKind
    | NotOneRow(rows: nat)
    | NegativeRows(count: int)
    | MissingTable
    | EmptyUpdate
    | InvalidKind(kind: string)
    | InNotArray(field: string)
    | LikeNotString(field: string)
    | UnsupportedCondition(op: string)
    | EmptyExpression
    | ExpressionTypeChanged(kind: string)

  datatype Result<T> = Ok(value: T) | Err(error: Error)

  /** The result of a chain method: it returned, or it threw after whatever it had already changed. */
  datatype Outcome = Pass | Fail(error: Error)

  /**
   * A JavaScript value as the builder reads it. Numbers are integers; an
   * object is its own enumerable properties in enumeration order.
   */
  datatype Value =
    | Undefined
    | Null
    | Bool(b: bool)
    | Num(n: int)
    | Str(s: string)
    | Arr(items: seq<Value>)
    | Obj(fields: seq<(string, Value)>)

  /** A plain object used as a key-value map: conditions, update data, rows, template values. */
  type Record = seq<(string, Value)>

  /** `Object.keys(r)` */
  function Keys(r: Record): (ks: seq<string>)
    ensures |ks| == |r|
    ensures forall i :: 0 <= i < |r| ==> ks[i] == r[i].0
  {
    seq(|r|, i requires 0 <= i < |r| => r[i].0)
  }

  /** `r.hasOwnProperty(k)`, which for a plain object is also `k in r` */
  predicate HasKey(r: Record, k: string)
  {
    exists i :: 0 <= i < |r| && r[i].0 == k
  }

  /** `r[k]` for a key that is present. */
  function Lookup(r: Record, k: string): (v: Value)
    requires HasKey(r, k)
    ensures exists i :: 0 <= i < |r| && r[i] == (k, v)
  {
    if r[0].0 == k then r[0].1 else Lookup(r[1..], k)
  }

  /** No property holds `undefined`. */
  predicate NoUndefined(r: Record)
  {
    forall i :: 0 <= i < |r| ==> r[i].1 != Undefined
  }

  predicate IsDigit(c: char)
  {
    '0' <= c <= '9'
  }

  function DigitChar(d: nat): (c: char)
    requires d < 10
    ensures IsDigit(c)
  {
    ('0' as int + d) as char
  }

  /** Decimal digits of a natural number, without leading zeros. */
  function NatToString(n: nat): (s: string)
    ensures |s| >= 1
    ensures AllDigits(s)
    ensures s[0] != '0' || n == 0
    decreases n
  {
    if n < 10 then [DigitChar(n)] else NatToString(n / 10) + [DigitChar(n % 10)]
  }

  /** `String(n)` for an integer. */
  function IntToString(n: int): string
  {
    if n < 0 then "-" + NatToString(-n) else NatToString(n)
  }

  function DigitValue(c: char): (d: nat)
    requires IsDigit(c)
    ensures d < 10 && DigitChar(d) == c
  {
    c as int - '0' as int
  }

  predicate AllDigits(s: string)
  {
    forall i :: 0 <= i < |s| ==> IsDigit(s[i])
  }

  /** The number a string of decimal digits denotes. */
  function DigitsValue(s: string): nat
    requires AllDigits(s)
    decreases |s|
  {
    if s == [] then 0 else DigitsValue(s[..|s| - 1]) * 10 + DigitValue(s[|s| - 1])
  }

  /** Reads a decimal natural number; anything but a non-empty run of digits is refused. */
  function ParseNat(s: string): (r: Option<nat>)
    ensures r.Some? <==> s != [] && AllDigits(s)
  {
    if s != [] && AllDigits(s) then Some(DigitsValue(s)) else None
  }

  /** Printing a natural number and reading it back gives the number. */
  lemma {:induction false} ParseNatToString(n: nat)
    ensures ParseNat(NatToString(n)) == Some(n)
    decreases n
  {
    var s := NatToString(n);
    if n < 10 {
      assert s == [DigitChar(n)];
      assert s[..|s| - 1] == [];
      assert DigitsValue(s) == DigitValue(s[0]);
    } else {
      ParseNatToString(n / 10);
      assert s[..|s| - 1] == NatToString(n / 10);
      assert DigitValue(s[|s| - 1]) == n % 10;
    }
  }

  /**
   * `String(v)`: what a value turns into when it is pasted into text. Array
   * elements that are null or undefined become empty strings.
   */
  function ToText(v: Value): string
    decreases v
  {
    match v
    case Undefined => "undefined"
    case Null => "null"
    case Bool(b) => if b then "true" else "false"
    case Num(n) => IntToString(n)
    case Str(s) => s
    case Arr(items) =>
      Join(seq(|items|, i requires 0 <= i < |items| =>
        if items[i].Undefined? || items[i].Null? then "" else ToText(items[i])), ",")
    case Obj(_) => "[object Object]"
  }

  /**
   * The primitives the builder delegates to and whose behaviour is not part
   * of this model: `sqlEscape`, `sqlEscapeId`, the positional formatter
   * `sqlFormat` (which may throw), and `findKeysForUndefinedValue`.
   */
  datatype Provider = Provider(
    escape: Value -> string,
    escapeId: Value -> string,
    format: (string, seq<Value>) -> Result<string>,
    undefinedKeys: Record -> seq<string>)

  /** `sqlEscapeId(name)` for a name given as a string. */
  function EscapeName(p: Provider, name: string): string
  {
    p.escapeId(Str(name))
  }

  /** The provider reports exactly the records that hold an undefined value. */
  predicate ReportsUndefined(p: Provider, r: Record)
  {
    p.undefinedKeys(r) == [] <==> NoUndefined(r)
  }
}

/** The few JavaScript value semantics the order pipeline's decisions depend on:
    primitive values read from parsed JSON, truthiness, `a || b || ...` chains,
    template-literal stringification, and the shape of an HTTP client error. */
module Js {

  datatype Option<+T> = None | Some(value: T)

  /** A primitive JavaScript value as it can appear in a parsed JSON response.
      Numbers are modelled as integers. */
  datatype Value = Undefined | Null | Bool(b: bool) | Num(n: int) | Str(s: string)

  /** The own properties of a parsed JSON object; a missing property reads as `undefined`. */
  type Fields = map<string, Value>

  function Get(o: Fields, key: string): Value
  {
    if key in o then o[key] else Undefined
  }

  /** A schema-typed optional string field: absent reads as `undefined`. */
  function OfOption(o: Option<string>): Value
  {
    match o
    case None => Undefined
    case Some(s) => Str(s)
  }

  /** JavaScript truthiness: `undefined`, `null`, `false`, `0` and `""` are falsy. */
  predicate Truthy(v: Value)
  {
    match v
    case Undefined => false
    case Null => false
    case Bool(b) => b
    case Num(n) => n != 0
    case Str(s) => s != ""
  }

  /** `vs[0] || vs[1] || ... || vs[|vs|-1]`: the first truthy operand, or the last
      operand when none is truthy. (`||` is left-associative, but both groupings
      yield the same value.) */
  function Or(vs: seq<Value>): (r: Value)
    requires |vs| > 0
    ensures r in vs
    ensures Truthy(r) <==> exists i :: 0 <= i < |vs| && Truthy(vs[i])
  {
    if |vs| == 1 || Truthy(vs[0]) then vs[0] else Or(vs[1..])
  }

  /** The chain picks the first truthy operand. */
  lemma {:induction false} OrFirstTruthy(vs: seq<Value>, k: nat)
    requires k < |vs| && Truthy(vs[k])
    requires forall j :: 0 <= j < k ==> !Truthy(vs[j])
    ensures Or(vs) == vs[k]
  {
    if k > 0 {
      OrFirstTruthy(vs[1..], k - 1);
    }
  }

  /** With no truthy operand, the chain yields its last operand. */
  lemma {:induction false} OrAllFalsy(vs: seq<Value>)
    requires |vs| > 0
    requires forall j :: 0 <= j < |vs| ==> !Truthy(vs[j])
    ensures Or(vs) == vs[|vs| - 1]
  {
    if |vs| > 1 {
      OrAllFalsy(vs[1..]);
    }
  }

  /** The text a template literal `${v}` (or a String-typed schema field) produces. */
  function Stringify(v: Value): string
  {
    match v
    case Undefined => "undefined"
    case Null => "null"
    case Bool(b) => if b then "true" else "false"
    case Num(n) => if n < 0 then "-" + Decimal(-n) else Decimal(n)
    case Str(s) => s
  }

  function Decimal(n: nat): (r: string)
    ensures |r| > 0
  {
    if n < 10 then ["0123456789"[n]] else Decimal(n / 10) + ["0123456789"[n % 10]]
  }

  /** An error thrown by an HTTP client call: its `message`, and the object
      `error.response.data` when the server answered with a JSON object body
      (`None` when there was no response or its body was not an object). */
  datatype HttpError = HttpError(message: string, responseData: Option<Fields>)

  /** The outcome of an awaited call that either resolves or throws. */
  datatype Result<+T> = Ok(value: T) | Err(error: HttpError)
}

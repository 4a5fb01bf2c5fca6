/**
 * The JavaScript values a spreadsheet cell can hold after `sheet_to_json`,
 * and the three value tests the row normaliser relies on: nullishness (`??`),
 * truthiness (`||`) and `String(v)`.
 */
module JsValues {

  /** A cell value. `Undefined` is what a lookup of a missing key yields. */
  datatype Value = Undefined | Null | Num(x: real) | Str(s: string) | Bool(b: bool)

  /** `v == null` in JavaScript: true of `null` and `undefined` only. */
  predicate IsNullish(v: Value) {
    v.Undefined? || v.Null?
  }

  /** JavaScript truthiness: `undefined`, `null`, `0`, `""` and `false` are falsy. */
  predicate IsTruthy(v: Value) {
    match v
    case Undefined => false
    case Null => false
    case Num(x) => x != 0.0
    case Str(s) => s != ""
    case Bool(b) => b
  }

  /** `String(v)` for the non-nullish, non-number values a cell can hold. */
  function ToJsString(v: Value): string
    requires v.Str? || v.Bool?
  {
    match v
    case Str(s) => s
    case Bool(b) => if b then "true" else "false"
  }

  /** A falsy value is never mistaken for a missing one: only null and undefined are nullish. */
  lemma NullishImpliesFalsy(v: Value)
    ensures IsNullish(v) ==> !IsTruthy(v)
    ensures !IsTruthy(v) && !IsNullish(v) <==> v in {Num(0.0), Str(""), Bool(false)}
  {
  }

  /**
   * Index of the operand that `vs[0] ?? vs[1] ?? ... ?? vs[n-1]` evaluates to:
   * the first one that is not null/undefined, or the last one when all are.
   */
  function CoalesceIndex(vs: seq<Value>): (i: nat)
    requires |vs| > 0
    ensures i < |vs|
    ensures forall j :: 0 <= j < i ==> IsNullish(vs[j])
    ensures i < |vs| - 1 ==> !IsNullish(vs[i])
  {
    if |vs| == 1 || !IsNullish(vs[0]) then 0 else 1 + CoalesceIndex(vs[1..])
  }

  /** `vs[0] ?? vs[1] ?? ... ?? vs[n-1]`. */
  function Coalesce(vs: seq<Value>): Value
    requires |vs| > 0
  {
    vs[CoalesceIndex(vs)]
  }

  /**
   * Index of the operand that `vs[0] || vs[1] || ... || vs[n-1]` evaluates to:
   * the first truthy one, or the last one when none is truthy.
   */
  function OrIndex(vs: seq<Value>): (i: nat)
    requires |vs| > 0
    ensures i < |vs|
    ensures forall j :: 0 <= j < i ==> !IsTruthy(vs[j])
    ensures i < |vs| - 1 ==> IsTruthy(vs[i])
  {
    if |vs| == 1 || IsTruthy(vs[0]) then 0 else 1 + OrIndex(vs[1..])
  }

  /** `vs[0] || vs[1] || ... || vs[n-1]`. */
  function Or(vs: seq<Value>): Value
    requires |vs| > 0
  {
    vs[OrIndex(vs)]
  }

  /** `??` picks the first present operand even when it is falsy (`0`, `""`, `false`). */
  lemma CoalesceFirstPresent(vs: seq<Value>, i: nat)
    requires i < |vs| && !IsNullish(vs[i])
    requires forall j :: 0 <= j < i ==> IsNullish(vs[j])
    ensures Coalesce(vs) == vs[i]
  {
  }

  /** When every operand of `??` but the last is null/undefined, the last one is the result. */
  lemma CoalesceLast(vs: seq<Value>)
    requires |vs| > 0
    requires forall j :: 0 <= j < |vs| - 1 ==> IsNullish(vs[j])
    ensures Coalesce(vs) == vs[|vs| - 1]
  {
  }

  /** When every operand of `??` is null/undefined the result is nullish too. */
  lemma CoalesceAllNullish(vs: seq<Value>)
    requires |vs| > 0
    requires forall j :: 0 <= j < |vs| ==> IsNullish(vs[j])
    ensures IsNullish(Coalesce(vs))
  {
  }

  /** `||` picks the first truthy operand, skipping falsy-but-present ones. */
  lemma OrFirstTruthy(vs: seq<Value>, i: nat)
    requires i < |vs| && IsTruthy(vs[i])
    requires forall j :: 0 <= j < i ==> !IsTruthy(vs[j])
    ensures Or(vs) == vs[i]
  {
  }

  /** A truthy operand before the last one stops `||` there or earlier, so the result is truthy. */
  lemma OrTruthyBefore(vs: seq<Value>, j: nat)
    requires j < |vs| - 1 && IsTruthy(vs[j])
    ensures OrIndex(vs) <= j && IsTruthy(Or(vs))
  {
  }

  /** When no operand of `||` is truthy the last operand is the result, whatever it is. */
  lemma OrNoneTruthy(vs: seq<Value>)
    requires |vs| > 0
    requires forall j :: 0 <= j < |vs| - 1 ==> !IsTruthy(vs[j])
    ensures Or(vs) == vs[|vs| - 1]
  {
  }
}

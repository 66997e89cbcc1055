/** The JavaScript values the helpers of common.js look at, and how `if (v)` judges them. */
module Js {

  /** Numbers are integers here; NaN and fractions do not occur in the modelled inputs. */
  datatype JsValue =
    | Undefined
    | Null
    | Bool(b: bool)
    | Num(n: int)
    | Str(s: string)
    | Obj

  /** JavaScript truthiness: false for undefined, null, false, 0 and "". */
  predicate Truthy(v: JsValue)
  {
    match v
    case Undefined => false
    case Null => false
    case Bool(b) => b
    case Num(n) => n != 0
    case Str(s) => s != ""
    case Obj => true
  }

  /** `isDefined(v)` of common.js: neither undefined nor null. */
  function IsDefined(v: JsValue): (r: bool)
    ensures r ==> v != Undefined && v != Null
    ensures v.Bool? || v.Num? || v.Str? || v.Obj? ==> r
  {
    !(v == Undefined || v == Null)
  }

  /** Every truthy value is defined; defined values can still be falsy (0, "", false). */
  lemma TruthyIsDefined(v: JsValue)
    ensures Truthy(v) ==> IsDefined(v)
    ensures IsDefined(Num(0)) && !Truthy(Num(0))
    ensures IsDefined(Str("")) && !Truthy(Str(""))
    ensures IsDefined(Bool(false)) && !Truthy(Bool(false))
  {
  }
}

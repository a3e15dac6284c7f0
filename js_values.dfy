/** The JavaScript values the widget's options can hold, and the few
    operations of the language the constructor relies on. */
module JsValues {

  /** The numbers without a real value. */
  datatype NonFiniteNumber = NaN | PositiveInfinity | NegativeInfinity

  /** A JavaScript value. A number is either finite (an exact real; rounding
      is not modelled) or one of the non-finite numbers. Objects are modelled
      by their own enumerable properties, which is all that object spread
      (`{...o}`) reads. */
  datatype Value =
    | Undefined
    | Null
    | Bool(b: bool)
    | Num(n: real)
    | NonFinite(special: NonFiniteNumber)
    | Str(s: string)
    | Obj(fields: map<string, Value>)

  /** `typeof v === 'number'`: true of `NaN` and the infinities as well. */
  predicate IsNumber(v: Value) {
    v.Num? || v.NonFinite?
  }

  /** `Number.isFinite(v)` */
  predicate IsFiniteNumber(v: Value) {
    v.Num?
  }

  /** `typeof v === 'object' && v !== null` */
  predicate IsObject(v: Value) {
    v.Obj?
  }

  /** Truthiness as used by `||`: `undefined`, `null`, `false`, `0` and `""`
      are falsy, every object is truthy. */
  predicate Truthy(v: Value) {
    match v
    case Undefined => false
    case Null => false
    case Bool(b) => b
    case Num(n) => n != 0.0
    case NonFinite(k) => k != NaN
    case Str(s) => s != ""
    case Obj(_) => true
  }

  /** `-a` on a number. */
  function Negate(a: Value): (r: Value)
    requires IsNumber(a)
    ensures IsNumber(r)
    ensures IsFiniteNumber(r) <==> IsFiniteNumber(a)
  {
    match a
    case Num(n) => Num(-n)
    case NonFinite(k) =>
      NonFinite(match k case NaN => NaN case PositiveInfinity => NegativeInfinity case NegativeInfinity => PositiveInfinity)
  }

  /** `a + b` on numbers: `NaN` absorbs everything, opposite infinities give
      `NaN`, and an infinity absorbs any finite number. */
  function Add(a: Value, b: Value): (r: Value)
    requires IsNumber(a) && IsNumber(b)
    ensures IsNumber(r)
    ensures a.Num? && b.Num? ==> r == Num(a.n + b.n)
    ensures a == NonFinite(NaN) || b == NonFinite(NaN) ==> r == NonFinite(NaN)
    ensures a.NonFinite? && b.Num? ==> r == a
  {
    if a.Num? && b.Num? then Num(a.n + b.n)
    else if a == NonFinite(NaN) || b == NonFinite(NaN) then NonFinite(NaN)
    else if b.Num? then a
    else if a.Num? then b
    else if a == b then a
    else NonFinite(NaN)
  }

  /** `a - b` on numbers. */
  function Subtract(a: Value, b: Value): (r: Value)
    requires IsNumber(a) && IsNumber(b)
    ensures IsNumber(r)
  {
    Add(a, Negate(b))
  }

  /** `a * b` on numbers: an infinity times zero is `NaN`, times any other
      number an infinity of the product's sign. */
  function Multiply(a: Value, b: Value): (r: Value)
    requires IsNumber(a) && IsNumber(b)
    ensures IsNumber(r)
    ensures a.Num? && b.Num? ==> r == Num(a.n * b.n)
    ensures a == NonFinite(NaN) || b == NonFinite(NaN) ==> r == NonFinite(NaN)
  {
    if a.Num? && b.Num? then Num(a.n * b.n)
    else if a == NonFinite(NaN) || b == NonFinite(NaN) || Sign(a) == 0 || Sign(b) == 0 then NonFinite(NaN)
    else if Sign(a) == Sign(b) then NonFinite(PositiveInfinity)
    else NonFinite(NegativeInfinity)
  }

  /** The sign of a number other than `NaN`. */
  function Sign(a: Value): int
    requires IsNumber(a)
  {
    match a
    case Num(n) => if n > 0.0 then 1 else if n < 0.0 then -1 else 0
    case NonFinite(k) => if k == PositiveInfinity then 1 else if k == NegativeInfinity then -1 else 0
  }

  /** `a > x` for a number `a` and a finite `x`; every comparison with `NaN`
      is false. */
  predicate GreaterThan(a: Value, x: real)
    requires IsNumber(a)
  {
    match a
    case Num(n) => n > x
    case NonFinite(k) => k == PositiveInfinity
  }

  /** `a < x` for a number `a` and a finite `x`. */
  predicate LessThan(a: Value, x: real)
    requires IsNumber(a)
  {
    match a
    case Num(n) => n < x
    case NonFinite(k) => k == NegativeInfinity
  }

  /** Reading property `key` of an object: an absent key reads as `undefined`. */
  function Get(o: map<string, Value>, key: string): Value
  {
    if key in o then o[key] else Undefined
  }

  /** The own properties that spreading `v` into an object literal copies.
      A non-object copies nothing; the index keys a spread string would add
      are not modelled (see README). */
  function OwnProperties(v: Value): map<string, Value>
  {
    if v.Obj? then v.fields else map[]
  }
}

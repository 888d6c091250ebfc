/*
 * The JavaScript values the adapters compute with: IEEE numbers seen as the
 * extended reals plus NaN, the Math functions the adapters call on them,
 * thrown errors, and the reply of a child process.
 */
module JsValues {

  /** A JavaScript number. Finite values are exact reals; rounding artefacts of
      binary floating point are not modelled. */
  datatype Num = Fin(val: real) | NaN | PosInf | NegInf

  datatype Option<T> = None | Some(value: T) {
    function GetOr(default: T): T {
      if Some? then value else default
    }
  }

  /** A thrown JavaScript exception: its constructor and its message. */
  datatype JsError = Error(message: string) | TypeError(message: string)

  /** The settled state of an operation's promise. */
  datatype Result<T> = Ok(value: T) | Err(error: JsError)

  /** What a child process gives back: its standard output, or the message of
      the error it failed with. */
  datatype Reply = Stdout(text: string) | Failed(message: string)

  /** An operation's outcome together with the external commands it ran, in order. */
  datatype Run<T> = Run(issued: seq<string>, result: Result<T>)

  predicate IsInteger(r: real) {
    r.Floor as real == r
  }

  /** Number.isFinite */
  predicate IsFinite(x: Num) {
    x.Fin?
  }

  /** The numeric order of the extended reals; NaN is below nothing and nothing is below NaN. */
  predicate Below(a: Num, b: Num) {
    match (a, b)
    case (Fin(x), Fin(y)) => x < y
    case (NegInf, Fin(_)) => true
    case (NegInf, PosInf) => true
    case (Fin(_), PosInf) => true
    case _ => false
  }

  /** Math.round: the nearest integer, a half rounded toward +Infinity. */
  function Round(x: Num): (r: Num)
    ensures r.NaN? <==> x.NaN?
    ensures x.Fin? ==> r.Fin? && IsInteger(r.val) && x.val - 1.0 / 2.0 < r.val <= x.val + 1.0 / 2.0
    ensures !x.Fin? ==> r == x
  {
    if x.Fin? then Fin((x.val + 1.0 / 2.0).Floor as real) else x
  }

  /** Math.min of two arguments. */
  function Min(a: Num, b: Num): (r: Num)
    ensures r.NaN? <==> a.NaN? || b.NaN?
    ensures !r.NaN? ==> (r == a || r == b) && !Below(a, r) && !Below(b, r)
  {
    if a.NaN? || b.NaN? then NaN
    else if Below(b, a) then b
    else a
  }

  /** Math.max of two arguments. */
  function Max(a: Num, b: Num): (r: Num)
    ensures r.NaN? <==> a.NaN? || b.NaN?
    ensures !r.NaN? ==> (r == a || r == b) && !Below(r, a) && !Below(r, b)
  {
    if a.NaN? || b.NaN? then NaN
    else if Below(a, b) then b
    else a
  }

  /** Math.max(0, Math.min(100, x)): the clamp every adapter applies. */
  function ClampPercent(x: Num): (r: Num)
    ensures r.NaN? <==> x.NaN?
    ensures !x.NaN? ==> r.Fin? && 0.0 <= r.val <= 100.0
    ensures x.Fin? && 0.0 <= x.val <= 100.0 ==> r == x
    ensures (x.Fin? && x.val < 0.0) || x.NegInf? ==> r == Fin(0.0)
    ensures (x.Fin? && x.val > 100.0) || x.PosInf? ==> r == Fin(100.0)
  {
    Max(Fin(0.0), Min(Fin(100.0), x))
  }

  /** `x || 0`: NaN and zero are falsy, so only NaN is changed. */
  function OrZero(x: Num): (r: Num)
    ensures !r.NaN?
    ensures x.NaN? ==> r == Fin(0.0)
    ensures !x.NaN? ==> r == x
  {
    if x.NaN? || x == Fin(0.0) then Fin(0.0) else x
  }

  /** The integer held by a finite number. */
  function Integral(x: Num): int
    requires x.Fin?
  {
    x.val.Floor
  }
}

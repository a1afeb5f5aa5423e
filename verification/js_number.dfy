/** JavaScript numbers as the form handler sees them, and the `validInput` check
    that `#newWorkout` applies to them (script.js:121). */
module JsNumber {

  /** An IEEE double abstracted to a real, plus the three non-finite values. */
  datatype Num = Finite(value: real) | NaN | PosInf | NegInf

  /** `Number.isFinite(x)` */
  predicate IsFinite(x: Num) {
    x.Finite?
  }

  /** JavaScript truthiness of a number: everything but 0, -0 and NaN. */
  predicate Truthy(x: Num) {
    match x
    case Finite(v) => v != 0.0
    case NaN => false
    case PosInf => true
    case NegInf => true
  }

  /** `x > 0`; every comparison with NaN is false. */
  predicate GreaterThanZero(x: Num) {
    match x
    case Finite(v) => v > 0.0
    case NaN => false
    case PosInf => true
    case NegInf => false
  }

  /** The per-input test of `validInput`: finite, truthy and positive.
      The truthiness test is redundant: it is implied by the other two. */
  function ValidNumber(x: Num): (ok: bool)
    ensures ok <==> x.Finite? && x.value > 0.0
  {
    IsFinite(x) && Truthy(x) && GreaterThanZero(x)
  }

  /** `inputs.every(...)`: the inputs are checked left to right. */
  function ValidInput(inputs: seq<Num>): (ok: bool)
    ensures ok <==> forall i :: 0 <= i < |inputs| ==> inputs[i].Finite? && inputs[i].value > 0.0
  {
    if |inputs| == 0 then true
    else ValidNumber(inputs[0]) && ValidInput(inputs[1..])
  }

  /** `validInput` on sample triples: all positive passes; a zero, a
      negative, NaN or Infinity fails. */
  lemma ValidInputExamples()
    ensures ValidInput([Finite(1.0), Finite(2.0), Finite(3.0)])
    ensures !ValidInput([Finite(0.0), Finite(1.0), Finite(2.0)])
    ensures !ValidInput([Finite(-1.0), Finite(1.0), Finite(2.0)])
    ensures !ValidInput([NaN, Finite(1.0), Finite(2.0)])
    ensures !ValidInput([PosInf, Finite(1.0), Finite(2.0)])
  {
  }
}

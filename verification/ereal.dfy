/** Extended reals: the engine's scalar `dReal` restricted to its ordered,
    non-NaN values, with the infinity sentinel `dInfinity` (and its negation,
    which appears as the lower bound of an infinite-friction row) made exact. */
module ExtReal {

  datatype EReal = NegInf | Fin(v: real) | PosInf

  /** Strict order of the extended line; agrees with IEEE `<` on non-NaN values. */
  predicate Lt(a: EReal, b: EReal)
  {
    match (a, b)
    case (NegInf, NegInf) => false
    case (NegInf, _) => true
    case (Fin(x), Fin(y)) => x < y
    case (Fin(_), PosInf) => true
    case (_, _) => false
  }

  predicate Le(a: EReal, b: EReal)
  {
    a == b || Lt(a, b)
  }

  /** `x > 0` on an extended real. */
  predicate Positive(a: EReal)
  {
    Lt(Fin(0.0), a)
  }

  /** Unary minus: swaps the two infinities. */
  function Negate(a: EReal): (r: EReal)
    ensures Lt(a, Fin(0.0)) <==> Positive(r)
    ensures Positive(a) <==> Lt(r, Fin(0.0))
    ensures r.Fin? <==> a.Fin?
  {
    match a
    case NegInf => PosInf
    case Fin(x) => Fin(-x)
    case PosInf => NegInf
  }

  /** The smaller of two extended reals (the first one on a tie). */
  function Min(a: EReal, b: EReal): (r: EReal)
    ensures Le(r, a) && Le(r, b)
    ensures r == a || r == b
  {
    if Lt(b, a) then b else a
  }
}

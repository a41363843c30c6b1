/**
 * The contract of the bracketed root finder the calculator hands its
 * objective to (SciPy's `optimize.bisect` with its default relative
 * tolerance and iteration budget). Its iterations are not modelled; what it
 * promises is:
 *   - it evaluates the objective at both ends first and lets an exception
 *     from either leave unchanged;
 *   - it refuses a bracket whose ends have the same sign (a `ValueError`);
 *   - it returns an end at which the objective is exactly zero;
 *   - any other answer is one end of a sub-bracket, at most the tolerance
 *     wide, at whose ends the objective changes sign;
 *   - it may instead let an exception from a later evaluation, at a point of
 *     the bracket, leave, or give up (a `RuntimeError`), which it can only do
 *     when its 100 halvings of the bracket stay at or above the tolerance.
 */
module Bisection {
  import opened Results

  datatype BisectError<+E> =
    | RootNotBracketed   // f(a) and f(b) have the same sign
    | ConvergenceError   // the iteration budget ran out
    | Raised(error: E)   // an evaluation of the objective raised

  /** 2^100: the default budget of 100 halvings shrinks a bracket by this factor. */
  const HalvingFactor: real := 1267650600228229401496703205376.0

  /** The default relative tolerance, four times the double-precision epsilon (2^-50). */
  const Rtol: real := 0.00000000000000088817841970012523233890533447265625

  function Abs(x: real): real {
    if x < 0.0 then -x else x
  }

  /** Width of the final bracket, one end of which is the answer x, for
      absolute tolerance xtol: the solver stops once its halved step is below
      xtol + rtol |x|. */
  function Window(xtol: real, x: real): real {
    xtol + Rtol * Abs(x)
  }

  /** x is one of two points of [a, b], at most Window(xtol, x) apart, between whose values of f zero lies. */
  ghost predicate Brackets<E>(f: real -> Result<real, E>, a: real, b: real, xtol: real, x: real) {
    exists lo: real, hi: real ::
      && a <= lo <= x <= hi <= b
      && (x == lo || x == hi)
      && hi - lo <= Window(xtol, x)
      && f(lo).Success? && f(hi).Success?
      && Between(0.0, f(lo).value, f(hi).value)
  }

  /** What one call `bisect(f, a, b, xtol)` may answer. A magnitude is only
      ever answered when both ends evaluate and zero lies between their
      values. */
  ghost function BisectSpec<E>(f: real -> Result<real, E>, a: real, b: real, xtol: real,
                               r: Result<real, BisectError<E>>): (ok: bool)
    ensures ok && r.Success? ==> f(a).Success? && f(b).Success? && Between(0.0, f(a).value, f(b).value)
  {
    var ok :=
      && (r.Success? ==> a <= r.value <= b && Brackets(f, a, b, xtol, r.value))
      && (f(a).Failure? ==> r == Failure(Raised(f(a).error)))
      && (f(a).Success? && f(b).Failure? ==> r == Failure(Raised(f(b).error)))
      && (f(a).Success? && f(b).Success? ==>
            && (r == Failure(RootNotBracketed) <==> f(a).value * f(b).value > 0.0)
            && (f(a).value == 0.0 ==> r == Success(a))
            && (f(a).value != 0.0 && f(b).value == 0.0 ==> r == Success(b)))
      && (r.Failure? && r.error.Raised? ==> exists m :: a <= m <= b && f(m) == Failure(r.error.error))
      && (r == Failure(ConvergenceError) ==> b - a >= xtol * HalvingFactor);
    if ok && r.Success? then
      SignChangeBrackets(f(a).value, f(b).value, 0.0);
      ok
    else
      ok
  }

  /** bisect keeps its contract on every objective and every proper bracket. */
  ghost predicate IsBisect<E(!new)>(bisect: (real -> Result<real, E>, real, real, real) -> Result<real, BisectError<E>>) {
    forall f: real -> Result<real, E>, a: real, b: real, xtol: real ::
      a < b && 0.0 < xtol ==> BisectSpec(f, a, b, xtol, bisect(f, a, b, xtol))
  }

  /** An objective that evaluates everywhere in the bracket never makes the
      solver report a raised error. */
  lemma TotalObjectiveNeverRaises<E>(f: real -> Result<real, E>, a: real, b: real, xtol: real,
                                     r: Result<real, BisectError<E>>)
    requires BisectSpec(f, a, b, xtol, r)
    requires forall m :: a <= m <= b ==> f(m).Success?
    ensures !(r.Failure? && r.error.Raised?)
  {
  }

  /** t lies between x and y. */
  predicate Between(t: real, x: real, y: real) {
    (x <= t <= y) || (y <= t <= x)
  }

  /** A product of two differences from t that is not positive puts t between them. */
  lemma SignChangeBrackets(x: real, y: real, t: real)
    ensures (x - t) * (y - t) <= 0.0 ==> Between(t, x, y)
  {
    if !Between(t, x, y) {
      SameSide(x, y, t);
    }
  }

  /** Two values on the same side of t differ from it with the same sign. */
  lemma SameSide(x: real, y: real, t: real)
    requires (x < t && y < t) || (t < x && t < y)
    ensures (x - t) * (y - t) > 0.0
  {
    if x < t {
      var u, v := t - x, t - y;
      assert u * v > 0.0;
      assert (x - t) * (y - t) == u * v;
    }
  }

  /** The objective `m -> g(m) - target` for a curve g that may raise. */
  function Shifted<E>(g: real -> Result<real, E>, target: real): real -> Result<real, E> {
    m =>
      match g(m)
      case Success(v) => Success(v - target)
      case Failure(e) => Failure(e)
  }

  /** When g is at or beyond the target at neither end, the bracket is refused. */
  lemma TargetOutsideNotBracketed<E>(g: real -> Result<real, E>, target: real, a: real, b: real, xtol: real,
                                     r: Result<real, BisectError<E>>, atA: real, atB: real)
    requires BisectSpec(Shifted(g, target), a, b, xtol, r)
    requires g(a) == Success(atA) && g(b) == Success(atB)
    requires (atA < target && atB < target) || (target < atA && target < atB)
    ensures r == Failure(RootNotBracketed)
  {
    var f := Shifted(g, target);
    assert f(a) == Success(atA - target) && f(b) == Success(atB - target);
    SameSide(atA, atB, target);
  }

  /** An answer of the solver lies in the bracket, and g passes through the
      target between it and a point at most Window(xtol, answer) away. */
  lemma RootReachesTarget<E>(g: real -> Result<real, E>, target: real, a: real, b: real, xtol: real,
                             r: Result<real, BisectError<E>>)
    requires BisectSpec(Shifted(g, target), a, b, xtol, r)
    requires r.Success?
    ensures a <= r.value <= b
    ensures exists lo: real, hi: real ::
      && a <= lo <= r.value <= hi <= b
      && (r.value == lo || r.value == hi)
      && hi - lo <= Window(xtol, r.value)
      && g(lo).Success? && g(hi).Success?
      && Between(target, g(lo).value, g(hi).value)
  {
    var f, x := Shifted(g, target), r.value;
    var lo: real, hi: real :|
      && a <= lo <= x <= hi <= b
      && (x == lo || x == hi)
      && hi - lo <= Window(xtol, x)
      && f(lo).Success? && f(hi).Success?
      && Between(0.0, f(lo).value, f(hi).value);
    assert f(lo).value == g(lo).value - target && f(hi).value == g(hi).value - target;
  }
}

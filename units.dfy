/**
 * Physical quantities as the calculator uses them: a real value tagged with
 * the exponents of four base dimensions (photon count, time, length, angle).
 * This is the part of astropy's unit arithmetic the calculator relies on:
 * a product adds exponents, a quotient subtracts them, a power scales them,
 * and a sum of two quantities exists only when they have one dimension;
 * any other sum is the `UnitConversionError` astropy raises. A bare number
 * is a dimensionless quantity here, so astropy's leniency towards a bare
 * 0, inf or nan (which it adds to a quantity of any unit) is not modelled.
 * Unit scales (photons per
 * minute against photons per second, arcsec against degrees) are not
 * modelled: two quantities are compatible exactly when their dimensions are
 * equal.
 */
module Units {
  import opened Results

  /** Exponents of photon count, second, metre and angle. */
  datatype Dim = Dim(photon: int, second: int, metre: int, angle: int)

  const Dimensionless: Dim := Dim(0, 0, 0, 0)
  const Photon: Dim := Dim(1, 0, 0, 0)
  const Second: Dim := Dim(0, 1, 0, 0)
  const Metre: Dim := Dim(0, 0, 1, 0)
  const Angle: Dim := Dim(0, 0, 0, 1)
  /** photons per second: a dark current */
  const PhotonRate: Dim := Dim(1, -1, 0, 0)
  const SquareMetre: Dim := Dim(0, 0, 2, 0)
  /** photons per second per square metre: a source or sky flux */
  const PhotonFlux: Dim := Dim(1, -1, -2, 0)

  function DimTimes(a: Dim, b: Dim): Dim {
    Dim(a.photon + b.photon, a.second + b.second, a.metre + b.metre, a.angle + b.angle)
  }

  function DimOver(a: Dim, b: Dim): Dim {
    Dim(a.photon - b.photon, a.second - b.second, a.metre - b.metre, a.angle - b.angle)
  }

  function DimPower(a: Dim, n: int): Dim {
    Dim(a.photon * n, a.second * n, a.metre * n, a.angle * n)
  }

  datatype Quantity = Quantity(value: real, dim: Dim)

  datatype UnitError = UnitConversionError

  /** A bare number where a quantity is expected: a dimensionless quantity. */
  function Number(x: real): Quantity {
    Quantity(x, Dimensionless)
  }

  /** The product `a * b`. */
  function Mul(a: Quantity, b: Quantity): Quantity {
    Quantity(a.value * b.value, DimTimes(a.dim, b.dim))
  }

  /** The quotient `a / b`; the calculator only divides by a non-zero constant. */
  function Div(a: Quantity, b: Quantity): (r: Quantity)
    requires b.value != 0.0
    ensures Mul(r, b) == a
  {
    Quantity(a.value / b.value, DimOver(a.dim, b.dim))
  }

  /** The power `q ** n` for a natural exponent. */
  function Pow(q: Quantity, n: nat): (r: Quantity)
    ensures r.dim == DimPower(q.dim, n)
    ensures q.value >= 0.0 ==> r.value >= 0.0
  {
    if n == 0 then Number(1.0) else Mul(q, Pow(q, n - 1))
  }

  /** The sum `a + b`: it exists exactly when the dimensions agree. */
  function Add(a: Quantity, b: Quantity): (r: Result<Quantity, UnitError>)
    ensures r.Success? <==> a.dim == b.dim
    ensures r.Success? ==> r.value.dim == a.dim && r.value.value == a.value + b.value
  {
    if a.dim == b.dim then Success(Quantity(a.value + b.value, a.dim)) else Failure(UnitConversionError)
  }

  lemma SquareIsProduct(q: Quantity)
    ensures Pow(q, 2) == Mul(q, q)
  {
    assert Pow(q, 0) == Number(1.0);
    assert Pow(q, 1) == q;
  }

  /** Multiplying both operands of a sum by one factor multiplies the sum by it. */
  lemma MulDistributesOverAdd(a: Quantity, b: Quantity, k: Quantity)
    requires Add(a, b).Success?
    ensures Add(Mul(a, k), Mul(b, k)) == Success(Mul(Add(a, b).value, k))
  {
    var sum := Add(a, b).value;
    assert sum == Quantity(a.value + b.value, a.dim);
    assert (a.value + b.value) * k.value == a.value * k.value + b.value * k.value;
    assert Mul(a, k).dim == Mul(b, k).dim;
    assert Add(Mul(a, k), Mul(b, k)).value == Mul(sum, k);
  }
}

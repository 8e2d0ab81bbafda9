/**
 * Exact decimal arithmetic used by the back office: Python `Decimal` values are
 * modelled as Dafny `real`s, and the rounding modes the code asks for are written
 * out explicitly.
 */
module Decimales {

  /** `math.floor` on an exact value. */
  function Piso(x: real): (r: int)
    ensures r as real <= x < r as real + 1.0
  {
    x.Floor
  }

  /** `math.ceil` on an exact value. */
  function Techo(x: real): (r: int)
    ensures x <= r as real < x + 1.0
  {
    -((-x).Floor)
  }

  /** Python `int(x)`: truncation toward zero. */
  function Truncar(x: real): (r: int)
    ensures x >= 0.0 ==> r as real <= x < r as real + 1.0
    ensures x < 0.0 ==> r as real - 1.0 < x <= r as real
  {
    if x >= 0.0 then x.Floor else -((-x).Floor)
  }

  /** Integer ceiling of `a / b` for a positive divisor. */
  function TechoDiv(a: int, b: int): (r: int)
    requires b > 0
    ensures r * b >= a && (r - 1) * b < a
  {
    var q := a / b;
    assert a == q * b + a % b;
    if a % b == 0 then q else q + 1
  }

  /** `x` is a whole number of hundredths. */
  predicate Centesimal(x: real)
  {
    (x * 100.0).Floor as real == x * 100.0
  }

  /** Hundredths of `x` rounded half away from zero (`ROUND_HALF_UP`). */
  function CentavosMitadArriba(x: real): (c: int)
    ensures -0.5 <= c as real - x * 100.0 <= 0.5
    ensures x >= 0.0 ==> c >= 0
  {
    if x >= 0.0 then (x * 100.0 + 0.5).Floor else -((-x * 100.0 + 0.5).Floor)
  }

  /** `x.quantize(Decimal("0.01"), rounding=ROUND_HALF_UP)`. */
  function Redondear2(x: real): (r: real)
    ensures Centesimal(r)
    ensures -0.005 <= r - x <= 0.005
    ensures x >= 0.0 ==> r >= 0.0
  {
    var c := CentavosMitadArriba(x);
    assert (c as real / 100.0) * 100.0 == c as real;
    c as real / 100.0
  }

  lemma CentesimalEntero(k: int)
    ensures Centesimal(k as real / 100.0)
  {
    assert (k as real / 100.0) * 100.0 == k as real;
  }

  /** A value that already has at most two decimals is left unchanged by rounding. */
  lemma Redondear2Centesimal(x: real)
    requires Centesimal(x)
    ensures Redondear2(x) == x
  {
    var k := (x * 100.0).Floor;
    assert x * 100.0 == k as real;
    if x >= 0.0 {
      assert (x * 100.0 + 0.5).Floor == k;
    } else {
      assert (-x * 100.0 + 0.5).Floor == -k;
    }
  }

  /** Rounding is idempotent. */
  lemma Redondear2Idempotente(x: real)
    ensures Redondear2(Redondear2(x)) == Redondear2(x)
  {
    Redondear2Centesimal(Redondear2(x));
  }

  lemma SumaCentesimal(a: real, b: real)
    requires Centesimal(a) && Centesimal(b)
    ensures Centesimal(a + b) && Centesimal(a - b)
  {
    var ka := (a * 100.0).Floor;
    var kb := (b * 100.0).Floor;
    assert a * 100.0 == ka as real && b * 100.0 == kb as real;
    assert (a + b) * 100.0 == a * 100.0 + b * 100.0;
    assert (a - b) * 100.0 == a * 100.0 - b * 100.0;
    assert (a + b) * 100.0 == (ka + kb) as real;
    assert (a - b) * 100.0 == (ka - kb) as real;
    assert ((ka + kb) as real).Floor == ka + kb;
    assert ((ka - kb) as real).Floor == ka - kb;
  }

  lemma NegarCentesimal(x: real)
    requires Centesimal(x)
    ensures Centesimal(-x)
  {
    var k := (x * 100.0).Floor;
    assert x * 100.0 == k as real;
    assert (-x) * 100.0 == (-k) as real;
    assert ((-k) as real).Floor == -k;
  }

  /** Nearest integer, ties to the even neighbour (Python's `round` and `ROUND_HALF_EVEN`). */
  function MitadPar(x: real): (r: int)
    ensures -0.5 <= r as real - x <= 0.5
  {
    var f := x.Floor;
    var frac := x - f as real;
    if frac < 0.5 then f
    else if frac > 0.5 then f + 1
    else if f % 2 == 0 then f else f + 1
  }

  /** `x.quantize(Decimal("0.01"))` under the default `ROUND_HALF_EVEN` context. */
  function Redondear2Par(x: real): (r: real)
    ensures Centesimal(r)
    ensures -0.005 <= r - x <= 0.005
  {
    var c := MitadPar(x * 100.0);
    CentesimalEntero(c);
    c as real / 100.0
  }

  function Pot10(n: nat): (p: nat)
    ensures p >= 1
  {
    if n == 0 then 1 else 10 * Pot10(n - 1)
  }

  /** A value that already has at most two decimals is left unchanged by half-even rounding. */
  lemma Redondear2ParCentesimal(x: real)
    requires Centesimal(x)
    ensures Redondear2Par(x) == x
  {
    var k := (x * 100.0).Floor;
    assert x * 100.0 == k as real;
    MitadParEntero(k);
  }

  lemma MitadParEntero(k: int)
    ensures MitadPar(k as real) == k
  {
    assert (k as real).Floor == k;
  }

  /** `k * u` as an exact value. */
  function Multiplo(k: int, u: int): real
  {
    k as real * u as real
  }

  /** `math.ceil(x / u) * u`: the least multiple of a positive unit that is not below `x`. */
  function MultiploArriba(x: real, u: int): (r: real)
    requires u > 0
    ensures r == Multiplo(Techo(x / u as real), u)
    ensures r >= x && r - u as real < x
  {
    CotasTecho(x, u);
    Multiplo(Techo(x / u as real), u)
  }

  lemma CotasTecho(x: real, u: int)
    requires u > 0
    ensures Multiplo(Techo(x / u as real), u) >= x
    ensures Multiplo(Techo(x / u as real), u) - u as real < x
  {
    var U := u as real;
    var y := x / U;
    var t := Techo(y) as real;
    assert y * U == x;
    assert Multiplo(Techo(y), u) == t * U;
    MultiplicarMonotono(y, t, U);
    assert t - 1.0 < y;
    MultiplicarEstricto(t - 1.0, y, U);
    assert (t - 1.0) * U == t * U - U;
    assert t * U - U < x;
    assert Multiplo(Techo(y), u) - U < x;
  }

  /** No multiple of `u` lies in `[x, MultiploArriba(x, u))`. */
  lemma MultiploArribaMinimo(x: real, u: int, k: int)
    requires u > 0 && Multiplo(k, u) >= x
    ensures Multiplo(k, u) >= MultiploArriba(x, u)
  {
    TechoMinimo(x, u, k);
    MultiplicarMonotono(Techo(x / u as real) as real, k as real, u as real);
  }

  lemma TechoMinimo(x: real, u: int, k: int)
    requires u > 0 && Multiplo(k, u) >= x
    ensures Techo(x / u as real) <= k
  {
    var t := Techo(x / u as real);
    CotasTecho(x, u);
    MultiploSiguiente(t - 1, u);
    assert t - 1 + 1 == t;
    FactorEstricto((t - 1) as real, k as real, u as real);
  }

  /** `math.floor(x / u) * u`: the greatest multiple of a positive unit that is not above `x`. */
  function MultiploAbajo(x: real, u: int): (r: real)
    requires u > 0
    ensures r == Multiplo(Piso(x / u as real), u)
    ensures r <= x && x < r + u as real
  {
    CotasPiso(x, u);
    Multiplo(Piso(x / u as real), u)
  }

  lemma CotasPiso(x: real, u: int)
    requires u > 0
    ensures Multiplo(Piso(x / u as real), u) <= x
    ensures x < Multiplo(Piso(x / u as real), u) + u as real
  {
    var U := u as real;
    var y := x / U;
    var t := Piso(y) as real;
    assert y * U == x;
    assert Multiplo(Piso(y), u) == t * U;
    MultiplicarMonotono(t, y, U);
    assert y < t + 1.0;
    MultiplicarEstricto(y, t + 1.0, U);
    assert (t + 1.0) * U == t * U + U;
    assert x < t * U + U;
    assert x < Multiplo(Piso(y), u) + U;
  }

  /** No multiple of `u` lies in `(MultiploAbajo(x, u), x]`. */
  lemma MultiploAbajoMaximo(x: real, u: int, k: int)
    requires u > 0 && Multiplo(k, u) <= x
    ensures Multiplo(k, u) <= MultiploAbajo(x, u)
  {
    PisoMaximo(x, u, k);
    MultiplicarMonotono(k as real, Piso(x / u as real) as real, u as real);
  }

  lemma PisoMaximo(x: real, u: int, k: int)
    requires u > 0 && Multiplo(k, u) <= x
    ensures k <= Piso(x / u as real)
  {
    var t := Piso(x / u as real);
    CotasPiso(x, u);
    MultiploSiguiente(t, u);
    FactorEstricto(k as real, (t + 1) as real, u as real);
  }

  lemma FactorEstricto(a: real, b: real, c: real)
    requires c > 0.0 && a * c < b * c
    ensures a < b
  {
  }

  lemma MultiploSiguiente(k: int, u: int)
    ensures Multiplo(k + 1, u) == Multiplo(k, u) + u as real
  {
    assert (k + 1) as real == k as real + 1.0;
    Distribuir(k as real, u as real);
  }

  lemma Distribuir(a: real, c: real)
    ensures (a + 1.0) * c == a * c + c
  {
  }

  lemma MultiplicarMonotono(a: real, b: real, c: real)
    requires a <= b && c > 0.0
    ensures a * c <= b * c
  {
  }

  lemma MultiplicarEstricto(a: real, b: real, c: real)
    requires a < b && c > 0.0
    ensures a * c < b * c
  {
  }
}

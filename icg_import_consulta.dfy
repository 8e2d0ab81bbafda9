/**
 * The replenishment arithmetic spelled out in the SQL text of
 * `Compras/services/icg_import.py` (the `Calculos`, `Redondeo` and `Final`
 * steps and the computed columns of the last SELECT), on exact values.
 */
module ImportConsulta {
  import opened Resultados
  import opened Decimales
  import opened Textos

  /** `COALESCE(NULLIF(u, 0), 1)`: a missing or zero purchase unit counts as 1. */
  function UnidadCompra(u: Option<int>): (r: int)
    ensures r != 0
    ensures u.Some? && u.value != 0 ==> r == u.value
    ensures u.None? || u.value == 0 ==> r == 1
  {
    if u.None? || u.value == 0 then 1 else u.value
  }

  /** `embalaje`: the product of the two purchase units; never 0. */
  function Embalaje(base: Option<int>, mult: Option<int>): (r: int)
    ensures r != 0
    ensures UnidadCompra(base) >= 1 && UnidadCompra(mult) >= 1 ==> r >= 1
  {
    var a := UnidadCompra(base);
    var b := UnidadCompra(mult);
    if a >= 1 && b >= 1 then
      MultiplicarMonotono(1.0, b as real, a as real);
      assert (a * b) as real == a as real * b as real;
      a * b
    else a * b
  }

  /** `embalaje_safe`: a non-positive pack counts as 1. */
  function EmbalajeSeguro(e: int): (r: int)
    ensures r >= 1
    ensures e >= 1 ==> r == e
    ensures e <= 0 ==> r == 1
  {
    if e <= 0 then 1 else e
  }

  /** `diff_sin_redondeo`: the gap to the maximum stock, never negative. */
  function Diferencia(maximo: real, actual: real): (r: real)
    ensures r >= 0.0 && r >= maximo - actual
    ensures maximo - actual >= 0.0 ==> r == maximo - actual
    ensures maximo - actual < 0.0 ==> r == 0.0
  {
    if maximo - actual < 0.0 then 0.0 else maximo - actual
  }

  const FACTOR_CALDAS: real := 1.30
  const FACTOR_OTROS: real := 1.50

  /** `factor_almacen`: 1.30 for MERCASUR CALDAS (trimmed, any case), 1.50 for every other warehouse. */
  function FactorAlmacen(nombre: Option<string>): (r: real)
    ensures r == FACTOR_CALDAS <==> nombre.Some? && Upper(Strip(nombre.value)) == "MERCASUR CALDAS"
    ensures r == FACTOR_CALDAS || r == FACTOR_OTROS
  {
    if nombre.Some? && Upper(Strip(nombre.value)) == "MERCASUR CALDAS" then FACTOR_CALDAS else FACTOR_OTROS
  }

  /** The warehouses whose base suggestion is rounded up to whole packs. */
  predicate RedondeaArriba(codAlmacen: string)
  {
    codAlmacen == "1" || codAlmacen == "2"
  }

  /** The warehouses whose base suggestion is rounded at 0.3 of a pack. */
  predicate RedondeaUmbral(codAlmacen: string)
  {
    codAlmacen == "3" || codAlmacen == "50"
  }

  /**
   * `sugerido_base`: nothing for no gap; warehouses 1 and 2 round the gap up to
   * whole packs; warehouses 3 and 50 round up only when the fractional pack
   * (`paquetes_floor`, `fraccion_paquete`, over the unsafe pack) exceeds 0.3;
   * any other warehouse takes the gap as it is.
   */
  function SugeridoBase(codAlmacen: string, diff: real, embalaje: int): (r: real)
    requires embalaje != 0
    ensures diff <= 0.0 ==> r == 0.0
  {
    var seguro := EmbalajeSeguro(embalaje);
    if diff <= 0.0 then 0.0
    else if RedondeaArriba(codAlmacen) then MultiploArriba(diff, seguro)
    else if RedondeaUmbral(codAlmacen) then
      var paquetes := diff / embalaje as real;
      var piso := Piso(paquetes);
      if paquetes - piso as real > 0.3 then Multiplo(piso + 1, seguro) else Multiplo(piso, seguro)
    else diff
  }

  /** Warehouses 1 and 2 order the least whole number of packs that covers the gap. */
  lemma BaseCubreHueco(codAlmacen: string, diff: real, embalaje: int, k: int)
    requires embalaje != 0 && RedondeaArriba(codAlmacen) && diff > 0.0
    ensures var r := SugeridoBase(codAlmacen, diff, embalaje);
            r >= diff && r - EmbalajeSeguro(embalaje) as real < diff
            && r == Multiplo(Techo(diff / EmbalajeSeguro(embalaje) as real), EmbalajeSeguro(embalaje))
            && (Multiplo(k, EmbalajeSeguro(embalaje)) >= diff ==> Multiplo(k, EmbalajeSeguro(embalaje)) >= r)
  {
    if Multiplo(k, EmbalajeSeguro(embalaje)) >= diff {
      MultiploArribaMinimo(diff, EmbalajeSeguro(embalaje), k);
    }
  }

  /**
   * Warehouses 3 and 50 take the multiple of the pack just below the gap, or
   * the next one when the gap passes the lower multiple by more than 0.3 of a
   * pack, so the result is within 0.3 of a pack below and 0.7 above the gap.
   */
  lemma BaseUmbral(codAlmacen: string, diff: real, embalaje: int)
    requires embalaje >= 1 && RedondeaUmbral(codAlmacen) && diff > 0.0
    ensures var r := SugeridoBase(codAlmacen, diff, embalaje);
            var abajo := MultiploAbajo(diff, embalaje);
            r == (if diff - abajo > 0.3 * embalaje as real then abajo + embalaje as real else abajo)
            && diff - 0.3 * embalaje as real <= r < diff + 0.7 * embalaje as real
  {
    var e := embalaje as real;
    var piso := Piso(diff / e);
    var r := SugeridoBase(codAlmacen, diff, embalaje);
    var abajo := MultiploAbajo(diff, embalaje);
    assert abajo == Multiplo(piso, embalaje);
    FraccionEscalada(diff, e, piso as real);
    var frac := diff / e - piso as real;
    assert frac * e == diff - abajo;
    if frac > 0.3 {
      MultiplicarEstricto(0.3, frac, e);
      MultiploSiguiente(piso, embalaje);
      assert r == abajo + e;
    } else {
      MultiplicarMonotono(frac, 0.3, e);
      assert r == abajo;
    }
  }

  lemma FraccionEscalada(diff: real, e: real, p: real)
    requires e > 0.0
    ensures (diff / e - p) * e == diff - p * e
  {
  }

  /** `Sugerido`: the base times the warehouse factor, rounded up to whole packs. */
  function Sugerido(base: real, factor: real, seguro: int): (r: real)
    ensures base <= 0.0 ==> r == 0.0
  {
    if base <= 0.0 then 0.0
    else if seguro <= 0 then Techo(base * factor) as real
    else MultiploArriba(base * factor, seguro)
  }

  /** `Cajas`: the number of packs in `Sugerido`. */
  function Cajas(base: real, factor: real, seguro: int): (r: int)
    ensures base <= 0.0 ==> r == 0
  {
    if base <= 0.0 || seguro == 0 then 0 else Techo(base * factor / seguro as real)
  }

  /** `CostoLinea`: `Sugerido` priced at the last cost. */
  function CostoLinea(base: real, factor: real, seguro: int, costo: real): (r: real)
    ensures base <= 0.0 ==> r == 0.0
  {
    if base <= 0.0 then 0.0
    else if seguro <= 0 then Techo(base * factor) as real * costo
    else MultiploArriba(base * factor, seguro) * costo
  }

  /**
   * For a real pack the three columns agree: `Sugerido` is `Cajas` packs, it
   * is the least multiple of the pack covering base times factor, and
   * `CostoLinea` prices it.
   */
  lemma ColumnasCoherentes(base: real, factor: real, seguro: int, costo: real, k: int)
    requires seguro >= 1
    ensures Sugerido(base, factor, seguro) == Multiplo(Cajas(base, factor, seguro), seguro)
    ensures CostoLinea(base, factor, seguro, costo) == Sugerido(base, factor, seguro) * costo
    ensures base > 0.0 ==>
      Sugerido(base, factor, seguro) >= base * factor
      && Sugerido(base, factor, seguro) - seguro as real < base * factor
      && (Multiplo(k, seguro) >= base * factor ==> Multiplo(k, seguro) >= Sugerido(base, factor, seguro))
  {
    if base > 0.0 && Multiplo(k, seguro) >= base * factor {
      MultiploArribaMinimo(base * factor, seguro, k);
    }
  }

  /** The stock data of one article in one warehouse, as the `Base` step reads it. */
  datatype FilaBase = FilaBase(
    codAlmacen: string,
    nombreAlmacen: Option<string>,
    stockActual: real,
    stockMaximo: real,
    udsCompraBase: Option<int>,
    udsCompraMult: Option<int>,
    ultimoCosto: real)

  /** The computed columns of the final SELECT. */
  datatype FilaCalculada = FilaCalculada(
    embalaje: int,
    sugeridoBase: real,
    factor: real,
    sugerido: real,
    cajas: int,
    costoLinea: real,
    esInformativa: bool)

  /** One output row's computed columns. */
  function Calcular(b: FilaBase): (c: FilaCalculada)
    ensures c.embalaje >= 1
  {
    var emb := Embalaje(b.udsCompraBase, b.udsCompraMult);
    var seguro := EmbalajeSeguro(emb);
    var diff := Diferencia(b.stockMaximo, b.stockActual);
    var base := SugeridoBase(b.codAlmacen, diff, emb);
    var factor := FactorAlmacen(b.nombreAlmacen);
    FilaCalculada(seguro, base, factor, Sugerido(base, factor, seguro), Cajas(base, factor, seguro),
                  CostoLinea(base, factor, seguro, b.ultimoCosto), diff <= 0.0)
  }

  /**
   * A row is informative exactly when the stock is at or above its maximum,
   * and an informative row suggests nothing: no base, no packs, no cost.
   */
  lemma InformativaSinPedido(b: FilaBase)
    ensures Calcular(b).esInformativa <==> b.stockMaximo - b.stockActual <= 0.0
    ensures Calcular(b).esInformativa ==>
      Calcular(b).sugeridoBase == 0.0 && Calcular(b).sugerido == 0.0
      && Calcular(b).cajas == 0 && Calcular(b).costoLinea == 0.0
  {
  }

  /**
   * In warehouses 1 and 2 a row below its maximum orders enough to reach it,
   * and the suggestion is a whole number of packs that covers the base times
   * the factor.
   */
  lemma PedidoAlcanzaMaximo(b: FilaBase)
    requires RedondeaArriba(b.codAlmacen) && b.stockMaximo - b.stockActual > 0.0
    ensures var c := Calcular(b);
            b.stockActual + c.sugeridoBase >= b.stockMaximo
            && c.sugerido == Multiplo(c.cajas, c.embalaje)
            && c.sugerido >= c.sugeridoBase * c.factor
  {
    var c := Calcular(b);
    ColumnasCoherentes(c.sugeridoBase, c.factor, c.embalaje, b.ultimoCosto, 0);
  }
}

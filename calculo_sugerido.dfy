/**
 * Purchase suggestion from stock levels and pack size
 * (`calcular_sugerido_inteligente`, `ajustar_sugerido_con_embalaje`).
 */
module CalculoSugerido {
  import opened Resultados
  import opened Decimales

  /** A stock figure: a missing or zero value counts as 0. */
  function StockNormalizado(s: Option<real>): (r: real)
    ensures s.Some? && s.value != 0.0 ==> r == s.value
    ensures s.None? ==> r == 0.0
  {
    match s
    case None => 0.0
    case Some(v) => v
  }

  /** The pack size: a missing or non-positive value counts as 1. */
  function EmbalajeNormalizado(e: Option<int>): (r: int)
    ensures r >= 1
    ensures e.Some? && e.value > 0 ==> r == e.value
    ensures (e.None? || e.value <= 0) ==> r == 1
  {
    if e.Some? && e.value > 0 then e.value else 1
  }

  const DIVISION_POR_CERO := "division by zero"

  /** The unit the large-pack branch rounds to: half a pack, or a quarter when half is still too big. */
  function UnidadMedia(emb: int, maximo: real): (u: int)
    requires emb >= 1
  {
    var medio := emb / 2;
    if medio as real > maximo && emb / 4 > 0 then emb / 4 else medio
  }

  /** `calcular_sugerido_inteligente(stock_actual, stock_maximo, embalaje)`. */
  function SugeridoInteligente(actual: Option<real>, maximo: Option<real>, embalaje: Option<int>): (r: Result<real>)
    ensures r.Ok? ==> r.value >= 0.0
  {
    var a := StockNormalizado(actual);
    var m := StockNormalizado(maximo);
    var e := EmbalajeNormalizado(embalaje);
    var faltantes := m - a;
    if faltantes <= 0.0 then Ok(0.0)
    else if e as real <= m then
      var cajas := Techo(faltantes / e as real);
      var sugerido := MultiploArriba(faltantes, e);
      var alternativo := Multiplo(cajas - 1, e);
      if sugerido > faltantes && cajas > 1 && alternativo >= faltantes * 0.8
      then Ok(alternativo)
      else Ok(sugerido)
    else
      var u := UnidadMedia(e, m);
      if u == 0 then Err(DIVISION_POR_CERO)
      else Ok(MultiploArriba(faltantes, u))
  }

  /** Nothing is suggested when the stock is already at or above its maximum. */
  lemma SinFaltantesCero(actual: Option<real>, maximo: Option<real>, embalaje: Option<int>)
    requires StockNormalizado(maximo) - StockNormalizado(actual) <= 0.0
    ensures SugeridoInteligente(actual, maximo, embalaje) == Ok(0.0)
  {
  }

  /**
   * A pack that fits under the maximum: the result is a whole number of packs, at least
   * 80% of the missing units and less than the missing units plus one pack; it is one
   * pack short of the ceiling exactly when the program's "one box less" rule fires.
   */
  lemma CajaCompleta(actual: Option<real>, maximo: Option<real>, embalaje: Option<int>)
    requires StockNormalizado(maximo) - StockNormalizado(actual) > 0.0
    requires EmbalajeNormalizado(embalaje) as real <= StockNormalizado(maximo)
    ensures var f := StockNormalizado(maximo) - StockNormalizado(actual);
            var e := EmbalajeNormalizado(embalaje);
            var r := SugeridoInteligente(actual, maximo, embalaje);
            var cajas := Techo(f / e as real);
            r.Ok?
            && (r.value == Multiplo(cajas, e) || r.value == Multiplo(cajas - 1, e))
            && r.value >= f * 0.8
            && r.value < f + e as real
            && (r.value == Multiplo(cajas - 1, e) <==>
                  (Multiplo(cajas, e) > f && cajas > 1 && Multiplo(cajas - 1, e) >= f * 0.8))
  {
    var f := StockNormalizado(maximo) - StockNormalizado(actual);
    var e := EmbalajeNormalizado(embalaje);
    var cajas := Techo(f / e as real);
    CotasTecho(f, e);
    assert Multiplo(cajas - 1, e) == Multiplo(cajas, e) - e as real;
  }

  /**
   * A pack larger than the maximum: the result is the least multiple of half a pack (or
   * of a quarter pack, when half a pack still exceeds the maximum) covering the missing units.
   */
  lemma MediaCaja(actual: Option<real>, maximo: Option<real>, embalaje: Option<int>, k: int)
    requires StockNormalizado(maximo) - StockNormalizado(actual) > 0.0
    requires EmbalajeNormalizado(embalaje) as real > StockNormalizado(maximo)
    requires UnidadMedia(EmbalajeNormalizado(embalaje), StockNormalizado(maximo)) > 0
    ensures var f := StockNormalizado(maximo) - StockNormalizado(actual);
            var u := UnidadMedia(EmbalajeNormalizado(embalaje), StockNormalizado(maximo));
            var r := SugeridoInteligente(actual, maximo, embalaje);
            r.Ok? && r.value >= f && r.value - u as real < f
            && r.value == Multiplo(Techo(f / u as real), u)
            && (Multiplo(k, u) >= f ==> Multiplo(k, u) >= r.value)
  {
    var f := StockNormalizado(maximo) - StockNormalizado(actual);
    var u := UnidadMedia(EmbalajeNormalizado(embalaje), StockNormalizado(maximo));
    if Multiplo(k, u) >= f {
      MultiploArribaMinimo(f, u, k);
    }
  }

  /**
   * The program divides by zero exactly when units are missing, the pack size is 1 and
   * the maximum is below 1 (so half a pack is 0).
   */
  lemma DivisionPorCeroSiYSoloSi(actual: Option<real>, maximo: Option<real>, embalaje: Option<int>)
    ensures SugeridoInteligente(actual, maximo, embalaje).Err? <==>
      (StockNormalizado(maximo) - StockNormalizado(actual) > 0.0
       && EmbalajeNormalizado(embalaje) == 1 && StockNormalizado(maximo) < 1.0)
  {
    var e := EmbalajeNormalizado(embalaje);
    var m := StockNormalizado(maximo);
    if e >= 2 {
      assert e / 2 >= 1;
      assert UnidadMedia(e, m) >= 1;
    }
  }

  /** `ajustar_sugerido_con_embalaje(sugerido_base, embalaje)`. */
  function AjustarConEmbalaje(base: Option<real>, embalaje: Option<int>): (r: real)
    ensures r >= 0.0
  {
    if base.None? || base.value <= 0.0 then 0.0
    else MultiploArriba(base.value, EmbalajeNormalizado(embalaje))
  }

  /** A positive base is raised to the least whole number of packs that covers it. */
  lemma AjustarEsMinimoMultiplo(base: real, embalaje: Option<int>, k: int)
    requires base > 0.0
    ensures var e := EmbalajeNormalizado(embalaje);
            var r := AjustarConEmbalaje(Some(base), embalaje);
            r >= base && r - e as real < base
            && r == Multiplo(Techo(base / e as real), e)
            && (Multiplo(k, e) >= base ==> Multiplo(k, e) >= r)
  {
    var e := EmbalajeNormalizado(embalaje);
    if Multiplo(k, e) >= base {
      MultiploArribaMinimo(base, e, k);
    }
  }

  /** A missing or non-positive base gives 0. */
  lemma AjustarSinBase(base: Option<real>, embalaje: Option<int>)
    requires base.None? || base.value <= 0.0
    ensures AjustarConEmbalaje(base, embalaje) == 0.0
  {
  }
}

/**
 * The two range filters of the suggestion-line list in `Compras/admin.py`:
 * `RangoSugeridoFilter` on `sugerido_calculado` and `RangoCostoFilter` on
 * `costo_linea`. A filter value becomes a condition on the column; a column
 * that is NULL satisfies no comparison, as in SQL.
 */
module FiltrosLineas {
  import opened Resultados
  import opened Textos

  /** One end of a range: its value, and whether the comparison is strict. */
  datatype Cota = Cota(valor: real, estricta: bool)

  /** `qs.filter(col__gte=..., col__lte=...)`; no ends at all is the unfiltered list. */
  datatype Condicion = Condicion(desde: Option<Cota>, hasta: Option<Cota>)

  const TODAS := Condicion(None, None)

  function Igual(x: real): Condicion
  {
    Condicion(Some(Cota(x, false)), Some(Cota(x, false)))
  }

  function Desde(x: real): Condicion
  {
    Condicion(Some(Cota(x, false)), None)
  }

  function Entre(a: real, b: real): Condicion
  {
    Condicion(Some(Cota(a, false)), Some(Cota(b, false)))
  }

  function EntreAbierto(a: real, b: real): Condicion
  {
    Condicion(Some(Cota(a, true)), Some(Cota(b, true)))
  }

  predicate SobreCota(c: Option<Cota>, x: real)
  {
    c.None? || (if c.value.estricta then x > c.value.valor else x >= c.value.valor)
  }

  predicate BajoCota(c: Option<Cota>, x: real)
  {
    c.None? || (if c.value.estricta then x < c.value.valor else x <= c.value.valor)
  }

  /** Whether a line whose column holds `x` stays in the filtered list. */
  predicate Cumple(c: Condicion, x: Option<real>)
  {
    c == TODAS || (x.Some? && SobreCota(c.desde, x.value) && BajoCota(c.hasta, x.value))
  }

  /** The unfiltered list keeps every line, NULL column included. */
  lemma TodasCumplen(x: Option<real>)
    ensures Cumple(TODAS, x)
  {
  }

  /** Any other condition drops the lines whose column is NULL. */
  lemma NuloNoCumple(c: Condicion)
    requires c != TODAS
    ensures !Cumple(c, None)
  {
  }

  // ------------------------------------------------------------ RangoSugeridoFilter

  /** The filter raises on a value that is not one of its forms. */
  const ERROR_RANGO := "ValueError"

  /**
   * `RangoSugeridoFilter.queryset`: no value or `''` is the whole list, `0`
   * is equality, `2001+` a lower bound, and any other value must be two
   * integers around one `-`, an inclusive range; anything else raises.
   */
  function RangoSugerido(val: Option<string>): (r: Result<Condicion>)
  {
    if val.None? || val.value == "" then Ok(TODAS)
    else if val.value == "0" then Ok(Igual(0.0))
    else if val.value == "2001+" then Ok(Desde(2001.0))
    else
      var partes := Split(val.value, '-');
      if |partes| != 2 then Err(ERROR_RANGO)
      else
        var a := ParseInt(partes[0]);
        var b := ParseInt(partes[1]);
        if a.None? || b.None? then Err(ERROR_RANGO)
        else Ok(Entre(a.value as real, b.value as real))
  }

  /** `a-b` with two numbers selects exactly the column values from `a` to `b`. */
  lemma {:induction false} RangoSugeridoEntre(a: nat, b: nat)
    ensures RangoSugerido(Some(NatATexto(a) + "-" + NatATexto(b))) == Ok(Entre(a as real, b as real))
  {
    var x, y := NatATexto(a), NatATexto(b);
    var s := x + "-" + y;
    assert s != "" && s != "0" && s != "2001+" by {
      NoEsFijo(x, y);
    }
    assert Split(s, '-') == [x, y] by {
      SinPunto(x);
      SinPunto(y);
      SplitConcat(x, '-', y);
      SplitSinSeparador(y, '-');
    }
    assert ParseInt(x) == Some(a) && ParseInt(y) == Some(b) by {
      ParseIntATexto(a);
      ParseIntATexto(b);
    }
    RangoDePartes(s, x, y);
  }

  lemma NoEsFijo(x: string, y: string)
    requires |x| >= 1 && |y| >= 1 && SoloDigitos(y)
    ensures var s := x + "-" + y; s != "" && s != "0" && s != "2001+"
  {
    var s := x + "-" + y;
    assert s[|s| - 1] == y[|y| - 1];
  }

  lemma RangoDePartes(s: string, x: string, y: string)
    requires s != "" && s != "0" && s != "2001+" && Split(s, '-') == [x, y]
    requires ParseInt(x).Some? && ParseInt(y).Some?
    ensures RangoSugerido(Some(s)) == Ok(Entre(ParseInt(x).value as real, ParseInt(y).value as real))
  {
  }

  /** A value with no `-` and none of the fixed forms raises. */
  lemma RangoSugeridoSinGuion(s: string)
    requires s != "" && s != "0" && s != "2001+" && '-' !in s
    ensures RangoSugerido(Some(s)).Err?
  {
    SplitSinSeparador(s, '-');
  }

  /** The list of choices the filter offers. */
  const OPCIONES_SUGERIDO: seq<string> := ["0", "1-100", "101-500", "501-2000", "2001+"]

  /** The condition each choice selects. */
  const BANDAS_SUGERIDO: seq<Condicion> :=
    [Igual(0.0), Entre(1.0, 100.0), Entre(101.0, 500.0), Entre(501.0, 2000.0), Desde(2001.0)]

  /** Every choice offered is read as its band. */
  lemma OpcionesSugerido(i: nat)
    requires i < |OPCIONES_SUGERIDO|
    ensures RangoSugerido(Some(OPCIONES_SUGERIDO[i])) == Ok(BANDAS_SUGERIDO[i])
  {
    Textos3();
    if i == 1 {
      OpcionRango(OPCIONES_SUGERIDO[1], 1, 100);
    } else if i == 2 {
      OpcionRango(OPCIONES_SUGERIDO[2], 101, 500);
    } else if i == 3 {
      OpcionRango(OPCIONES_SUGERIDO[3], 501, 2000);
    }
  }

  lemma OpcionRango(s: string, a: nat, b: nat)
    requires s == NatATexto(a) + "-" + NatATexto(b)
    ensures RangoSugerido(Some(s)) == Ok(Entre(a as real, b as real))
  {
    RangoSugeridoEntre(a, b);
  }

  lemma Textos3()
    ensures NatATexto(1) == "1" && NatATexto(100) == "100" && NatATexto(101) == "101"
    ensures NatATexto(500) == "500" && NatATexto(501) == "501" && NatATexto(2000) == "2000"
  {
    assert NatATexto(10) == "10" && NatATexto(50) == "50" && NatATexto(200) == "200";
  }

  /** A whole quantity that is not negative falls in exactly one of the offered bands. */
  lemma BandasSugeridoParticion(n: nat, i: nat)
    requires i < |BANDAS_SUGERIDO|
    ensures Cumple(BANDAS_SUGERIDO[i], Some(n as real)) <==> i == BandaSugerido(n)
  {
  }

  /** The band a whole quantity belongs to. */
  function BandaSugerido(n: nat): (i: nat)
    ensures i < |BANDAS_SUGERIDO|
  {
    if n == 0 then 0 else if n <= 100 then 1 else if n <= 500 then 2 else if n <= 2000 then 3 else 4
  }

  /** A fractional quantity between two bands, such as 100.5, is in none of them. */
  lemma EntreBandasSugerido(x: real, i: nat)
    requires 100.0 < x < 101.0 && i < |BANDAS_SUGERIDO|
    ensures !Cumple(BANDAS_SUGERIDO[i], Some(x))
  {
  }

  // ------------------------------------------------------------ RangoCostoFilter

  /**
   * `RangoCostoFilter.queryset`: each of the four choices is a fixed range,
   * and any other value leaves the list unfiltered.
   */
  function RangoCosto(val: Option<string>): (r: Condicion)
  {
    if val.None? || val.value == "" then TODAS
    else if val.value == "0" then Igual(0.0)
    else if val.value == "5M+" then Desde(5000000.0)
    else if val.value == "1-1M" then Entre(1.0, 1000000.0)
    else if val.value == "1M-5M" then EntreAbierto(1000000.0, 5000000.0)
    else TODAS
  }

  const OPCIONES_COSTO: seq<string> := ["0", "1-1M", "1M-5M", "5M+"]

  /** An unknown value keeps every line. */
  lemma CostoDesconocido(s: string, x: Option<real>)
    requires !(s in OPCIONES_COSTO)
    ensures Cumple(RangoCosto(Some(s)), x)
  {
  }

  /**
   * A cost that is not negative and not strictly between 0 and 1 is kept by
   * exactly one of the offered choices; one million belongs to `1-1M` only.
   */
  lemma BandasCostoParticion(x: real, i: nat)
    requires x >= 0.0 && !(0.0 < x < 1.0) && i < |OPCIONES_COSTO|
    ensures Cumple(RangoCosto(Some(OPCIONES_COSTO[i])), Some(x)) <==> i == BandaCosto(x)
  {
  }

  function BandaCosto(x: real): (i: nat)
    ensures i < |OPCIONES_COSTO|
  {
    if x < 1.0 then 0 else if x <= 1000000.0 then 1 else if x < 5000000.0 then 2 else 3
  }

  /** A cost strictly between 0 and 1 is kept by none of the choices. */
  lemma CostoSinBanda(x: real, i: nat)
    requires 0.0 < x < 1.0 && i < |OPCIONES_COSTO|
    ensures !Cumple(RangoCosto(Some(OPCIONES_COSTO[i])), Some(x))
  {
  }
}

/**
 * Purchase orders written to ICG from a suggestion lot
 * (`Compras/services/icg_pedidos.py`): the quantity each line orders, its
 * price, compound discount and tax, and one order per warehouse with its totals.
 *
 * The database is abstracted: the order numbers already used in the series are
 * a parameter, the rows inserted are returned as values, and an exception
 * (which rolls the whole transaction back) is an `Err`.
 */
module PedidosIcg {
  import opened Resultados
  import opened Decimales
  import opened Textos
  import opened Lineas
  import CalculoSugerido

  const DEFAULT_NUMSERIE := "13CP"
  const DEFAULT_SUBSERIE_N := "B"

  const PREFER_PROVEEDOR := "prefer_proveedor"
  const PREFER_INTERNO := "prefer_interno"
  const AJUSTE_DOWN := "down"
  const AJUSTE_NEAREST := "nearest"

  const SIN_PROVEEDOR := "El lote no tiene proveedor asignado."
  const SIN_CODIGO := "El proveedor no tiene codigo ICG (campo 'cod_icg' o 'codigo')."
  const SIN_LINEAS := "El lote no tiene lineas."
  const CODIGO_NO_NUMERICO := "invalid literal for int() with base 10"
  const ERROR_TIPO := "'>' not supported between instances of 'NoneType' and 'int'"

  /** `10 ** 14`: the discount is kept with 14 decimals. */
  const E14: nat := 100000000000000

  // ------------------------------------------------------------ Helpers

  /** `_round2`: half-up to hundredths, a missing value counting as 0. */
  function Round2(x: Option<real>): (r: real)
    ensures Centesimal(r)
    ensures -0.005 <= r - x.GetOr(0.0) <= 0.005
  {
    Redondear2(x.GetOr(0.0))
  }

  /** Python's `v and v > 0` on a nullable decimal. */
  predicate Positivo(v: Option<real>)
  {
    v.Some? && v.value > 0.0
  }

  function Abs(x: real): real { if x < 0.0 then -x else x }

  /**
   * `lin.estado_linea == APROBADA and lin.nuevo_sugerido_prov > 0`: comparing a
   * missing supplier quantity with 0 raises `TypeError`.
   */
  function ProveedorAprobado(lin: SugeridoLinea): (r: Result<bool>)
    ensures r.Err? <==> lin.estadoLinea == Some(APROBADA) && lin.nuevoSugeridoProv.None?
    ensures r == Ok(true) <==> lin.estadoLinea == Some(APROBADA) && Positivo(lin.nuevoSugeridoProv)
  {
    if lin.estadoLinea != Some(APROBADA) then Ok(false)
    else if lin.nuevoSugeridoProv.None? then Err(ERROR_TIPO)
    else Ok(lin.nuevoSugeridoProv.value > 0.0)
  }

  /** The quantity the policy picks before pack rounding (`_elegir_cantidad`, first half). */
  function CantidadPolitica(lin: SugeridoLinea, politica: string): (r: Result<real>)
  {
    var base := lin.sugeridoBase.GetOr(0.0);
    if politica == PREFER_PROVEEDOR then
      match ProveedorAprobado(lin)
      case Err(e) => Err(e)
      case Ok(aprobado) =>
        if aprobado then Ok(lin.nuevoSugeridoProv.value)
        else if Positivo(lin.sugeridoInterno) then Ok(lin.sugeridoInterno.value)
        else Ok(base)
    else if politica == PREFER_INTERNO then
      if Positivo(lin.sugeridoInterno) then Ok(lin.sugeridoInterno.value)
      else
        match ProveedorAprobado(lin)
        case Err(e) => Err(e)
        case Ok(aprobado) => if aprobado then Ok(lin.nuevoSugeridoProv.value) else Ok(base)
    else Ok(base)
  }

  /**
   * What each policy takes: the supplier's quantity only on an approved line,
   * the internal quantity only when positive, and otherwise the base (or 0).
   * The error is raised exactly when an approved line without a supplier
   * quantity is consulted.
   */
  lemma PoliticaElige(lin: SugeridoLinea, politica: string)
    ensures var r := CantidadPolitica(lin, politica);
            var base := lin.sugeridoBase.GetOr(0.0);
            var aprobado := lin.estadoLinea == Some(APROBADA) && Positivo(lin.nuevoSugeridoProv);
            (r.Err? <==> (politica == PREFER_PROVEEDOR || (politica == PREFER_INTERNO && !Positivo(lin.sugeridoInterno)))
                         && lin.estadoLinea == Some(APROBADA) && lin.nuevoSugeridoProv.None?)
            && (r.Ok? && politica == PREFER_PROVEEDOR ==>
                  r.value == (if aprobado then lin.nuevoSugeridoProv.value
                              else if Positivo(lin.sugeridoInterno) then lin.sugeridoInterno.value else base))
            && (r.Ok? && politica == PREFER_INTERNO ==>
                  r.value == (if Positivo(lin.sugeridoInterno) then lin.sugeridoInterno.value
                              else if aprobado then lin.nuevoSugeridoProv.value else base))
            && (politica != PREFER_PROVEEDOR && politica != PREFER_INTERNO ==> r == Ok(base))
  {
  }

  /** The two preference policies agree whenever at most one of the two preferred quantities is available. */
  lemma PoliticasCoinciden(lin: SugeridoLinea)
    requires !(lin.estadoLinea == Some(APROBADA) && Positivo(lin.nuevoSugeridoProv)) || !Positivo(lin.sugeridoInterno)
    requires lin.nuevoSugeridoProv.Some?
    ensures CantidadPolitica(lin, PREFER_PROVEEDOR) == CantidadPolitica(lin, PREFER_INTERNO)
  {
  }

  /** Pack rounding of `_elegir_cantidad` (second half): nothing for a non-positive quantity, unrounded for a pack of 1. */
  function AjustarAEmbalaje(q: real, pack: int, ajuste: string): (r: real)
    requires pack >= 1
    ensures r >= 0.0
  {
    if q <= 0.0 then 0.0
    else if pack <= 1 then q
    else if ajuste == AJUSTE_DOWN then MultiploAbajo(q, pack)
    else if ajuste == AJUSTE_NEAREST then
      var d := MultiploAbajo(q, pack);
      var u := MultiploArriba(q, pack);
      if q - d >= u - q then u else d
    else MultiploArriba(q, pack)
  }

  /**
   * A non-positive quantity gives 0 and a pack of 1 leaves it as it is; otherwise
   * the result is the multiple of the pack just below or just above it, so
   * strictly within one pack of it.
   */
  lemma AjusteEsMultiplo(q: real, pack: int, ajuste: string)
    requires pack >= 1
    ensures var r := AjustarAEmbalaje(q, pack, ajuste);
            (q <= 0.0 ==> r == 0.0)
            && (q > 0.0 && pack == 1 ==> r == q)
            && (q > 0.0 && pack > 1 ==>
                  (r == Multiplo(Piso(q / pack as real), pack) || r == Multiplo(Techo(q / pack as real), pack))
                  && q - pack as real < r < q + pack as real)
  {
  }

  /** 'down' gives the greatest multiple of the pack that does not exceed the quantity. */
  lemma AjusteAbajoMaximo(q: real, pack: int, k: int)
    requires q > 0.0 && pack > 1
    ensures var r := AjustarAEmbalaje(q, pack, AJUSTE_DOWN);
            r <= q && (Multiplo(k, pack) <= q ==> Multiplo(k, pack) <= r)
  {
    if Multiplo(k, pack) <= q {
      MultiploAbajoMaximo(q, pack, k);
    }
  }

  /** Any other adjustment ('up') gives the least multiple of the pack that covers the quantity. */
  lemma AjusteArribaMinimo(q: real, pack: int, ajuste: string, k: int)
    requires q > 0.0 && pack > 1
    requires ajuste != AJUSTE_DOWN && ajuste != AJUSTE_NEAREST
    ensures var r := AjustarAEmbalaje(q, pack, ajuste);
            r >= q && (Multiplo(k, pack) >= q ==> Multiplo(k, pack) >= r)
  {
    if Multiplo(k, pack) >= q {
      MultiploArribaMinimo(q, pack, k);
    }
  }

  /** 'nearest' gives a multiple of the pack at least as close as any other one, and the upper one on a tie. */
  lemma AjusteCercano(q: real, pack: int, k: int)
    requires q > 0.0 && pack > 1
    ensures var r := AjustarAEmbalaje(q, pack, AJUSTE_NEAREST);
            Abs(r - q) <= Abs(Multiplo(k, pack) - q)
            && (Abs(r - q) == Abs(Multiplo(k, pack) - q) && Multiplo(k, pack) > q ==> r >= q)
  {
    var d := MultiploAbajo(q, pack);
    var u := MultiploArriba(q, pack);
    if Multiplo(k, pack) <= q {
      MultiploAbajoMaximo(q, pack, k);
    }
    if Multiplo(k, pack) >= q {
      MultiploArribaMinimo(q, pack, k);
    }
  }

  /** `_elegir_cantidad(lin, politica, ajuste)`. */
  function ElegirCantidad(lin: SugeridoLinea, politica: string, ajuste: string): (r: Result<real>)
    ensures r.Err? <==> CantidadPolitica(lin, politica).Err?
    ensures r.Ok? ==> r.value >= 0.0
  {
    match CantidadPolitica(lin, politica)
    case Err(e) => Err(e)
    case Ok(q) => Ok(AjustarAEmbalaje(q, CalculoSugerido.EmbalajeNormalizado(lin.embalaje), ajuste))
  }

  /** `(row[0] or 0) + 1` over `ISNULL(MAX(NUMPEDIDO), 0)`. */
  function MaxONada(s: seq<int>): (m: int)
    ensures forall i :: 0 <= i < |s| ==> s[i] <= m
    ensures s == [] ==> m == 0
    ensures s != [] ==> m in s
  {
    if s == [] then 0
    else if |s| == 1 then s[0]
    else
      var p := MaxONada(s[..|s| - 1]);
      if s[|s| - 1] > p then s[|s| - 1] else p
  }

  /** `_next_numpedido`: one more than every number already used in the series, 1 for an empty series. */
  function NextNumPedido(existentes: seq<int>): (n: int)
    ensures forall i :: 0 <= i < |existentes| ==> existentes[i] < n
    ensures existentes == [] ==> n == 1
    ensures existentes != [] ==> n - 1 in existentes
  {
    MaxONada(existentes) + 1
  }

  lemma MaxAgregar(s: seq<int>, x: int)
    requires x > MaxONada(s)
    ensures MaxONada(s + [x]) == x
  {
    assert (s + [x])[..|s|] == s;
  }

  // ------------------------------------------------------- Price and discount

  /** `(1 - (1 - d1)(1 - d2)(1 - d3)) * 100` with `di = pct_i / 100`, missing percentages counting as 0. */
  function DescuentoCompuesto(p1: Option<real>, p2: Option<real>, p3: Option<real>): real
  {
    var d1 := p1.GetOr(0.0) / 100.0;
    var d2 := p2.GetOr(0.0) / 100.0;
    var d3 := p3.GetOr(0.0) / 100.0;
    (1.0 - (1.0 - d1) * (1.0 - d2) * (1.0 - d3)) * 100.0
  }

  /** Price rounded to cents and the compound discount as a count of `10^-14`. */
  datatype PrecioDto = PrecioDto(precio: real, dto14: int)

  /** `_precio_y_descuento(lin)`. */
  function PrecioYDescuento(lin: SugeridoLinea): (r: PrecioDto)
    ensures Centesimal(r.precio)
    ensures -0.005 <= r.precio - lin.ultimoCosto.GetOr(0.0) <= 0.005
    ensures -0.5 <= r.dto14 as real - DescuentoCompuesto(lin.descuento1, lin.descuento2, lin.descuento3) * E14 as real <= 0.5
  {
    PrecioDto(Round2(lin.ultimoCosto),
              MitadPar(DescuentoCompuesto(lin.descuento1, lin.descuento2, lin.descuento3) * E14 as real))
  }

  predicate Nulo(p: Option<real>) { p.None? || p.value == 0.0 }

  /** With the second and third discount absent, the compound discount is the first one. */
  lemma DescuentoUnico(p1: Option<real>, p2: Option<real>, p3: Option<real>)
    requires Nulo(p2) && Nulo(p3)
    ensures DescuentoCompuesto(p1, p2, p3) == p1.GetOr(0.0)
  {
  }

  /** ... and, for a first discount with at most 14 decimals, so is the quantized one. */
  lemma DescuentoUnicoExacto(lin: SugeridoLinea, j: int)
    requires Nulo(lin.descuento2) && Nulo(lin.descuento3)
    requires lin.descuento1 == Some(j as real / E14 as real)
    ensures PrecioYDescuento(lin).dto14 == j
  {
    DescuentoUnico(lin.descuento1, lin.descuento2, lin.descuento3);
    assert (j as real / E14 as real) * E14 as real == j as real;
    MitadParEntero(j);
  }

  /** The order in which the three discounts are applied does not matter. */
  lemma DescuentoConmutativo(p1: Option<real>, p2: Option<real>, p3: Option<real>)
    ensures DescuentoCompuesto(p1, p2, p3) == DescuentoCompuesto(p2, p1, p3)
    ensures DescuentoCompuesto(p1, p2, p3) == DescuentoCompuesto(p1, p3, p2)
  {
  }

  /** Percentages between 0 and 100 compound to a percentage between 0 and 100, no smaller than any of them. */
  lemma DescuentoAcotado(p1: real, p2: real, p3: real)
    requires 0.0 <= p1 <= 100.0 && 0.0 <= p2 <= 100.0 && 0.0 <= p3 <= 100.0
    ensures var c := DescuentoCompuesto(Some(p1), Some(p2), Some(p3));
            0.0 <= c <= 100.0 && c >= p1 && c >= p2 && c >= p3
  {
    var a := 1.0 - p1 / 100.0;
    var b := 1.0 - p2 / 100.0;
    var e := 1.0 - p3 / 100.0;
    ProductoUnidad(a, b);
    ProductoUnidad(a * b, e);
    var t := a * b * e;
    assert 0.0 <= t <= a && t <= b && t <= e;
    assert DescuentoCompuesto(Some(p1), Some(p2), Some(p3)) == (1.0 - t) * 100.0;
    assert p1 == (1.0 - a) * 100.0 && p2 == (1.0 - b) * 100.0 && p3 == (1.0 - e) * 100.0;
  }

  lemma ProductoUnidad(a: real, b: real)
    requires 0.0 <= a <= 1.0 && 0.0 <= b <= 1.0
    ensures 0.0 <= a * b <= a && a * b <= b
  {
    if a > 0.0 {
      MultiplicarMonotono(b, 1.0, a);
      MultiplicarMonotono(0.0, b, a);
    }
    if b > 0.0 {
      MultiplicarMonotono(a, 1.0, b);
    }
  }

  /** `str(d)` for a `Decimal` with exponent -14 and coefficient `k`: plain notation unless its adjusted exponent is below -6. */
  function DecimalTexto14(k: int): string
  {
    var a: nat := if k < 0 then -k else k;
    var signo := if k < 0 then "-" else "";
    var ds := NatATexto(a);
    if |ds| >= 9 then signo + NatATexto(a / E14) + "." + CerosIzquierda(a % E14, 14)
    else signo + [ds[0]] + (if |ds| > 1 then "." + ds[1..] else "") + "E" + IntATexto(|ds| - 15)
  }

  /** `_fmt_dtotexto(dto)`: empty for no discount, otherwise `-<dto>%`. */
  function FmtDtoTexto(dto14: int): (s: string)
  {
    if dto14 == 0 then "" else "-" + DecimalTexto14(dto14) + "%"
  }

  /** The text is empty exactly for a zero discount; a negative discount shows two minus signs. */
  lemma FmtDtoTextoVacio(k: int)
    ensures FmtDtoTexto(k) == "" <==> k == 0
    ensures k < 0 ==> FmtDtoTexto(k)[..2] == "--"
  {
  }

  lemma Potencias()
    ensures Pot10(8) == 100000000 && Pot10(14) == E14
  {
    assert Pot10(4) == 10000;
    assert Pot10(8) == 100000000;
    assert Pot10(12) == 1000000000000;
  }

  /** From `10^-6` on, the discount is written in plain notation. */
  lemma DecimalTexto14Plano(k: int)
    requires k >= 100000000
    ensures DecimalTexto14(k) == NatATexto(k / E14) + "." + CerosIzquierda(k % E14, 14)
  {
    Potencias();
    LongitudNatATexto(k, 8);
    assert |NatATexto(k)| >= 9;
  }

  /**
   * A discount of at least `10^-6` is written as its integer digits, a point
   * and 14 decimals that together denote the value.
   */
  lemma FmtDtoTextoValor(k: int)
    requires k >= 100000000
    ensures var e := NatATexto(k / E14);
            var f := CerosIzquierda(k % E14, 14);
            FmtDtoTexto(k) == "-" + (e + "." + f) + "%"
            && |f| == 14 && SoloDigitos(e) && SoloDigitos(f)
            && ValorDigitos(e) * E14 + ValorDigitos(f) == k
  {
    DecimalTexto14Plano(k);
    Potencias();
    CerosIzquierdaExacto(k % E14, 14);
    ValorNatATexto(k / E14);
    assert (k / E14) * E14 + k % E14 == k;
  }

  // ---------------------------------------------------------------- Tax

  datatype Impuesto = Impuesto(tipo: int, pct: real)

  /** `_impuestos_de_linea`: the `iva` attribute, else `IVA`, else 0; type 4 for 0% and 1 otherwise. */
  function ImpuestosDeLinea(lin: SugeridoLinea): (r: Impuesto)
    ensures r.tipo == 4 || r.tipo == 1
    ensures r.tipo == 4 <==> r.pct == 0.0
    ensures lin.iva.Some? ==> r.pct == lin.iva.value
    ensures lin.iva.None? ==> r.pct == lin.ivaMayus.GetOr(0.0)
  {
    var pct := if lin.iva.Some? then lin.iva.value else lin.ivaMayus.GetOr(0.0);
    Impuesto(if pct == 0.0 then 4 else 1, pct)
  }

  // ------------------------------------------------------------ Order rows

  /** `CODARTICULO`: the code as a number when it is all digits, else the text. */
  datatype CodArticulo = CodNumerico(n: nat) | CodTexto(s: string)

  function CodigoIcg(c: string): CodArticulo
  {
    if |c| >= 1 && SoloDigitos(c) then CodNumerico(ValorDigitos(c)) else CodTexto(c)
  }

  lemma CodigoIcgNumerico(n: nat)
    ensures CodigoIcg(NatATexto(n)) == CodNumerico(n)
  {
    ValorNatATexto(n);
  }

  /**
   * A `PEDCOMPRALIN` row, with the untaxed and tax amounts the header totals add
   * up. The text columns derived from other fields are the member functions.
   */
  datatype LineaPedido = LineaPedido(
    numserie: string, numpedido: int, subserie: string, numlinea: int,
    codigoArticulo: string, referencia: string, descripcionLarga: string,
    unidades: real, precio: real, dto14: int, tipoImpuesto: int, iva: real,
    totalLinea: real, codAlmacen: string, idLinea: int, importeSinIva: real, importeIva: real)
  {
    /** `CODARTICULO`. */
    function CodArticulo(): CodArticulo
    {
      CodigoIcg(codigoArticulo)
    }

    /** `DESCRIPCION`: the first 250 characters. */
    function Descripcion(): (r: string)
      ensures |r| <= 250 && |r| <= |descripcionLarga| && r == descripcionLarga[..|r|]
      ensures |descripcionLarga| <= 250 ==> r == descripcionLarga
    {
      Prefijo(descripcionLarga, 250)
    }

    /** `SUPEDIDO`. */
    function SuPedido(): string
    {
      Supedido(numserie, numpedido)
    }

    /** `DTOTEXTO`. */
    function DtoTexto(): (r: string)
      ensures r == "" <==> dto14 == 0
    {
      FmtDtoTextoVacio(dto14);
      FmtDtoTexto(dto14)
    }
  }

  /** The row written for a line ordering `q` units. */
  function Fila(lin: SugeridoLinea, q: real, numserie: string, numpedido: int, subserie: string, numlinea: int): (f: LineaPedido)
    ensures Centesimal(f.importeSinIva) && Centesimal(f.importeIva)
    ensures f.totalLinea == f.importeSinIva + f.importeIva
    ensures f.iva == 0.0 ==> f.importeIva == 0.0
    ensures f.unidades == q && f.numlinea == numlinea && f.idLinea == lin.id && f.codAlmacen == lin.codAlmacen
  {
    var pd := PrecioYDescuento(lin);
    var imp := ImpuestosDeLinea(lin);
    var sinIva := Round2(Some(pd.precio * (1.0 - (pd.dto14 as real / E14 as real) / 100.0) * q));
    var ivaLinea := if imp.pct != 0.0 then Round2(Some(sinIva * (imp.pct / 100.0))) else 0.0;
    assert Centesimal(0.0) by { assert (0.0 * 100.0).Floor == 0; }
    LineaPedido(numserie, numpedido, subserie, numlinea,
      lin.codigoArticulo, lin.referencia.GetOr(""), lin.descripcion.GetOr(""),
      q, pd.precio, pd.dto14, imp.tipo, imp.pct,
      sinIva + ivaLinea, lin.codAlmacen, lin.id, sinIva, ivaLinea)
  }

  predicate CantidadesValidas(lista: seq<SugeridoLinea>, politica: string, ajuste: string)
  {
    forall i :: 0 <= i < |lista| ==> ElegirCantidad(lista[i], politica, ajuste).Ok?
  }

  /** A line that orders something. */
  predicate Emitida(lin: SugeridoLinea, politica: string, ajuste: string)
  {
    ElegirCantidad(lin, politica, ajuste).Ok? && ElegirCantidad(lin, politica, ajuste).value > 0.0
  }

  /** The rows of one warehouse's order: one per line that orders something, numbered from 1. */
  function FilasDeGrupo(lista: seq<SugeridoLinea>, numserie: string, numpedido: int, subserie: string,
                        politica: string, ajuste: string): (r: seq<LineaPedido>)
    ensures |r| <= |lista|
  {
    if lista == [] then []
    else
      var prev := FilasDeGrupo(lista[..|lista| - 1], numserie, numpedido, subserie, politica, ajuste);
      var lin := lista[|lista| - 1];
      if Emitida(lin, politica, ajuste)
      then prev + [Fila(lin, ElegirCantidad(lin, politica, ajuste).value, numserie, numpedido, subserie, |prev| + 1)]
      else prev
  }

  /** The rows of a group are numbered 1, 2, ... and each orders a positive quantity. */
  lemma {:induction false} FilasNumeradas(lista: seq<SugeridoLinea>, numserie: string, numpedido: int, subserie: string,
                                          politica: string, ajuste: string)
    ensures forall t :: 0 <= t < |FilasDeGrupo(lista, numserie, numpedido, subserie, politica, ajuste)| ==>
      FilasDeGrupo(lista, numserie, numpedido, subserie, politica, ajuste)[t].numlinea == t + 1
      && FilasDeGrupo(lista, numserie, numpedido, subserie, politica, ajuste)[t].unidades > 0.0
  {
    if lista != [] {
      var previo := lista[..|lista| - 1];
      FilasNumeradas(previo, numserie, numpedido, subserie, politica, ajuste);
      var prev := FilasDeGrupo(previo, numserie, numpedido, subserie, politica, ajuste);
      assert forall t :: 0 <= t < |prev| ==> prev[t].numlinea == t + 1;
      var lin := lista[|lista| - 1];
      if Emitida(lin, politica, ajuste) {
        var f := Fila(lin, ElegirCantidad(lin, politica, ajuste).value, numserie, numpedido, subserie, |prev| + 1);
        assert FilasDeGrupo(lista, numserie, numpedido, subserie, politica, ajuste) == prev + [f];
        assert f.numlinea == |prev| + 1 && f.unidades > 0.0;
        forall t | 0 <= t < |prev| + 1
          ensures (prev + [f])[t].numlinea == t + 1 && (prev + [f])[t].unidades > 0.0
        {
          if t < |prev| {
            assert (prev + [f])[t] == prev[t];
            assert prev[t].numlinea == t + 1;
            assert prev[t].unidades > 0.0;
          } else {
            assert (prev + [f])[t] == f;
          }
        }
      }
    }
  }

  function SumaSinIva(s: seq<LineaPedido>): real
  {
    if s == [] then 0.0 else SumaSinIva(s[..|s| - 1]) + s[|s| - 1].importeSinIva
  }

  function SumaIva(s: seq<LineaPedido>): real
  {
    if s == [] then 0.0 else SumaIva(s[..|s| - 1]) + s[|s| - 1].importeIva
  }

  function SumaTotal(s: seq<LineaPedido>): real
  {
    if s == [] then 0.0 else SumaTotal(s[..|s| - 1]) + s[|s| - 1].totalLinea
  }

  predicate FilasCuadradas(s: seq<LineaPedido>)
  {
    forall t :: 0 <= t < |s| ==>
      Centesimal(s[t].importeSinIva) && Centesimal(s[t].importeIva)
      && s[t].totalLinea == s[t].importeSinIva + s[t].importeIva
  }

  /** Sums of amounts in cents are in cents, and the total is the untaxed sum plus the tax sum. */
  lemma {:induction false} SumasCuadran(s: seq<LineaPedido>)
    requires FilasCuadradas(s)
    ensures Centesimal(SumaSinIva(s)) && Centesimal(SumaIva(s))
    ensures SumaTotal(s) == SumaSinIva(s) + SumaIva(s)
  {
    if s == [] {
      assert (0.0 * 100.0).Floor == 0;
    } else {
      var p := s[..|s| - 1];
      assert forall t :: 0 <= t < |p| ==> p[t] == s[t];
      SumasCuadran(p);
      SumaCentesimal(SumaSinIva(p), s[|s| - 1].importeSinIva);
      SumaCentesimal(SumaIva(p), s[|s| - 1].importeIva);
    }
  }

  /** The order summary for one warehouse. */
  function PedidoDeGrupo(lista: seq<SugeridoLinea>, almacen: string, numserie: string, numpedido: int,
                         subserie: string, politica: string, ajuste: string): PedidoCreado
  {
    var filas := FilasDeGrupo(lista, numserie, numpedido, subserie, politica, ajuste);
    PedidoCreado(almacen, numserie, numpedido, subserie,
                 Round2(Some(SumaSinIva(filas))), Round2(Some(SumaIva(filas))), Round2(Some(SumaTotal(filas))))
  }

  /** All the rows of a group are built by `Fila`, so they balance. */
  lemma {:induction false} FilasDeGrupoCuadradas(lista: seq<SugeridoLinea>, numserie: string, numpedido: int,
                                                 subserie: string, politica: string, ajuste: string)
    ensures FilasCuadradas(FilasDeGrupo(lista, numserie, numpedido, subserie, politica, ajuste))
  {
    if lista != [] {
      var previo := lista[..|lista| - 1];
      assert forall i :: 0 <= i < |previo| ==> previo[i] == lista[i];
      FilasDeGrupoCuadradas(previo, numserie, numpedido, subserie, politica, ajuste);
    }
  }

  /** `TOTNETO = TOTBRUTO + TOTIMPUESTOS` on every order header. */
  lemma TotalesCuadran(lista: seq<SugeridoLinea>, almacen: string, numserie: string, numpedido: int,
                       subserie: string, politica: string, ajuste: string)
    ensures var p := PedidoDeGrupo(lista, almacen, numserie, numpedido, subserie, politica, ajuste);
            p.totNeto == p.totBruto + p.totImpuestos
            && p.totBruto == SumaSinIva(FilasDeGrupo(lista, numserie, numpedido, subserie, politica, ajuste))
  {
    var filas := FilasDeGrupo(lista, numserie, numpedido, subserie, politica, ajuste);
    FilasDeGrupoCuadradas(lista, numserie, numpedido, subserie, politica, ajuste);
    SumasCuadran(filas);
    SumaCentesimal(SumaSinIva(filas), SumaIva(filas));
    Redondear2Centesimal(SumaSinIva(filas));
    Redondear2Centesimal(SumaIva(filas));
    Redondear2Centesimal(SumaTotal(filas));
  }

  // ----------------------------------------------------------- Grouping

  /** The distinct warehouses of the lines, in order of first appearance (the keys of `grupos`). */
  function Almacenes(lineas: seq<SugeridoLinea>): (r: seq<string>)
    ensures |r| <= |lineas|
  {
    if lineas == [] then []
    else
      var p := Almacenes(lineas[..|lineas| - 1]);
      var a := lineas[|lineas| - 1].codAlmacen;
      if a in p then p else p + [a]
  }

  /** Each warehouse appears once, every line's warehouse appears, and nothing else does. */
  lemma {:induction false} AlmacenesExactos(lineas: seq<SugeridoLinea>)
    ensures forall i, j :: 0 <= i < j < |Almacenes(lineas)| ==> Almacenes(lineas)[i] != Almacenes(lineas)[j]
    ensures forall i :: 0 <= i < |lineas| ==> lineas[i].codAlmacen in Almacenes(lineas)
    ensures forall a :: a in Almacenes(lineas) ==> exists i :: 0 <= i < |lineas| && lineas[i].codAlmacen == a
  {
    if lineas != [] {
      var previo := lineas[..|lineas| - 1];
      AlmacenesExactos(previo);
      assert forall i :: 0 <= i < |previo| ==> previo[i] == lineas[i];
    }
  }

  /** The lines of one warehouse, in their original order (`grupos[almacen]`). */
  function DelAlmacen(lineas: seq<SugeridoLinea>, almacen: string): (r: seq<SugeridoLinea>)
    ensures |r| <= |lineas|
  {
    if lineas == [] then []
    else
      var p := DelAlmacen(lineas[..|lineas| - 1], almacen);
      var lin := lineas[|lineas| - 1];
      if lin.codAlmacen == almacen then p + [lin] else p
  }

  /** A group holds lines of the lot of that warehouse only. */
  lemma {:induction false} DelAlmacenOrigen(lineas: seq<SugeridoLinea>, almacen: string)
    ensures forall t :: 0 <= t < |DelAlmacen(lineas, almacen)| ==>
      DelAlmacen(lineas, almacen)[t] in lineas && DelAlmacen(lineas, almacen)[t].codAlmacen == almacen
  {
    if lineas != [] {
      var previo := lineas[..|lineas| - 1];
      DelAlmacenOrigen(previo, almacen);
      assert forall x :: x in previo ==> x in lineas;
    }
  }

  lemma {:induction false} DelAlmacenVacio(lineas: seq<SugeridoLinea>, almacen: string)
    requires almacen !in Almacenes(lineas)
    ensures DelAlmacen(lineas, almacen) == []
  {
    if lineas != [] {
      var previo := lineas[..|lineas| - 1];
      assert Almacenes(previo) <= Almacenes(lineas) || almacen !in Almacenes(previo);
      DelAlmacenVacio(previo, almacen);
    }
  }

  /** Each line is in its own warehouse's group. */
  lemma {:induction false} EnSuGrupo(lineas: seq<SugeridoLinea>, i: int)
    requires 0 <= i < |lineas|
    ensures lineas[i] in DelAlmacen(lineas, lineas[i].codAlmacen)
  {
    if i < |lineas| - 1 {
      var previo := lineas[..|lineas| - 1];
      assert previo[i] == lineas[i];
      EnSuGrupo(previo, i);
    }
  }

  /** A group holds only lines of the lot, so a line that fails in a group fails in the lot. */
  lemma GrupoValido(lineas: seq<SugeridoLinea>, almacen: string, politica: string, ajuste: string)
    ensures CantidadesValidas(lineas, politica, ajuste) ==> CantidadesValidas(DelAlmacen(lineas, almacen), politica, ajuste)
  {
    var g := DelAlmacen(lineas, almacen);
    DelAlmacenOrigen(lineas, almacen);
    forall t | 0 <= t < |g| && CantidadesValidas(lineas, politica, ajuste)
      ensures ElegirCantidad(g[t], politica, ajuste).Ok?
    {
      assert g[t] in lineas;
      var i :| 0 <= i < |lineas| && lineas[i] == g[t];
    }
  }

  predicate GruposValidos(lineas: seq<SugeridoLinea>, orden: seq<string>, j: int, politica: string, ajuste: string)
    requires 0 <= j <= |orden|
  {
    forall jj :: 0 <= jj < j ==> CantidadesValidas(DelAlmacen(lineas, orden[jj]), politica, ajuste)
  }

  /** The first `j` orders: the `jj`-th warehouse gets number `m + jj + 1`. */
  function PedidosHasta(lineas: seq<SugeridoLinea>, orden: seq<string>, j: int, m: int,
                        numserie: string, subserie: string, politica: string, ajuste: string): (r: seq<PedidoCreado>)
    requires 0 <= j <= |orden|
    ensures |r| == j
  {
    seq(j, jj requires 0 <= jj < j =>
      PedidoDeGrupo(DelAlmacen(lineas, orden[jj]), orden[jj], numserie, m + jj + 1, subserie, politica, ajuste))
  }

  lemma PedidosHastaPaso(lineas: seq<SugeridoLinea>, orden: seq<string>, j: int, m: int,
                         numserie: string, subserie: string, politica: string, ajuste: string)
    requires 0 <= j < |orden|
    ensures PedidosHasta(lineas, orden, j + 1, m, numserie, subserie, politica, ajuste)
         == PedidosHasta(lineas, orden, j, m, numserie, subserie, politica, ajuste)
            + [PedidoDeGrupo(DelAlmacen(lineas, orden[j]), orden[j], numserie, m + j + 1, subserie, politica, ajuste)]
  {
    var a := PedidosHasta(lineas, orden, j + 1, m, numserie, subserie, politica, ajuste);
    var b := PedidosHasta(lineas, orden, j, m, numserie, subserie, politica, ajuste)
             + [PedidoDeGrupo(DelAlmacen(lineas, orden[j]), orden[j], numserie, m + j + 1, subserie, politica, ajuste)];
    assert |a| == |b|;
    assert forall jj :: 0 <= jj < |a| ==> a[jj] == b[jj];
  }

  /** The rows of the first `j` orders, order after order. */
  function FilasHasta(lineas: seq<SugeridoLinea>, orden: seq<string>, j: int, m: int,
                      numserie: string, subserie: string, politica: string, ajuste: string): seq<LineaPedido>
    requires 0 <= j <= |orden|
  {
    if j == 0 then []
    else
      FilasHasta(lineas, orden, j - 1, m, numserie, subserie, politica, ajuste)
      + FilasDeGrupo(DelAlmacen(lineas, orden[j - 1]), numserie, m + j, subserie, politica, ajuste)
  }

  function IdsDe(filas: seq<LineaPedido>): (r: seq<int>)
    ensures |r| == |filas| && forall t :: 0 <= t < |filas| ==> r[t] == filas[t].idLinea
  {
    if filas == [] then [] else IdsDe(filas[..|filas| - 1]) + [filas[|filas| - 1].idLinea]
  }

  lemma IdsAgregar(a: seq<LineaPedido>, b: seq<LineaPedido>)
    ensures IdsDe(a + b) == IdsDe(a) + IdsDe(b)
  {
  }

  // ------------------------------------------------------------ The service

  /** `cod_icg or codigo`. */
  function CodigoProveedor(p: Proveedor): Option<string>
  {
    if p.codIcg.Some? && p.codIcg.value != "" then p.codIcg else p.codigo
  }

  /** The checks of `crear_pedido_compra_desde_lote`, in the order they raise; `Ok` carries `int(codprove)`. */
  function Validar(lote: SugeridoLote, lineas: seq<SugeridoLinea>, politica: string, ajuste: string): (r: Result<int>)
    ensures r.Ok? ==> lote.proveedor.Some? && lineas != [] && CantidadesValidas(lineas, politica, ajuste)
    ensures lote.proveedor.None? ==> r == Err(SIN_PROVEEDOR)
  {
    if lote.proveedor.None? then Err(SIN_PROVEEDOR)
    else
      var cod := CodigoProveedor(lote.proveedor.value);
      if cod.None? || cod.value == "" then Err(SIN_CODIGO)
      else if lineas == [] then Err(SIN_LINEAS)
      else match ParseInt(cod.value)
        case None => Err(CODIGO_NO_NUMERICO)
        case Some(n) => if CantidadesValidas(lineas, politica, ajuste) then Ok(n) else Err(ERROR_TIPO)
  }

  datatype Resultado = Resultado(
    codProveedor: int,
    pedidos: seq<PedidoCreado>,
    filas: seq<LineaPedido>,
    lineas: seq<SugeridoLinea>,
    lote: SugeridoLote)

  /** What a successful run writes: the orders, their rows, the updated lines and the completed lot. */
  function Esperado(lote: SugeridoLote, lineas: seq<SugeridoLinea>, m: int, numserie: string, subserie: string,
                    politica: string, ajuste: string): Resultado
    requires Validar(lote, lineas, politica, ajuste).Ok?
  {
    var orden := Almacenes(lineas);
    var pedidos := PedidosHasta(lineas, orden, |orden|, m, numserie, subserie, politica, ajuste);
    var filas := FilasHasta(lineas, orden, |orden|, m, numserie, subserie, politica, ajuste);
    Resultado(Validar(lote, lineas, politica, ajuste).value, pedidos, filas,
              MarcarOrdenadas(lineas, IdsDe(filas)),
              lote.(estado := COMPLETADO, pedidosIcg := pedidos))
  }

  /** After the first `k` lines of a group: the rows written so far and the running header totals. */
  predicate Acumulado(lista: seq<SugeridoLinea>, k: int, numserie: string, numpedido: int, subserie: string,
                      politica: string, ajuste: string, filas: seq<LineaPedido>, totBruto: real, totImpuestos: real, totNeto: real)
    requires 0 <= k <= |lista|
  {
    filas == FilasDeGrupo(lista[..k], numserie, numpedido, subserie, politica, ajuste)
    && totBruto == SumaSinIva(filas) && totImpuestos == SumaIva(filas) && totNeto == SumaTotal(filas)
  }

  /** One more line: its row, when it orders something, is appended with the next number and added to the totals. */
  lemma AcumuladoPaso(lista: seq<SugeridoLinea>, k: int, numserie: string, numpedido: int, subserie: string,
                      politica: string, ajuste: string, filas: seq<LineaPedido>, totBruto: real, totImpuestos: real, totNeto: real)
    requires 0 <= k < |lista|
    requires Acumulado(lista, k, numserie, numpedido, subserie, politica, ajuste, filas, totBruto, totImpuestos, totNeto)
    requires ElegirCantidad(lista[k], politica, ajuste).Ok?
    ensures var q := ElegirCantidad(lista[k], politica, ajuste).value;
            var f := Fila(lista[k], q, numserie, numpedido, subserie, |filas| + 1);
            if q > 0.0 then
              Acumulado(lista, k + 1, numserie, numpedido, subserie, politica, ajuste, filas + [f],
                        totBruto + f.importeSinIva, totImpuestos + f.importeIva, totNeto + f.totalLinea)
            else
              Acumulado(lista, k + 1, numserie, numpedido, subserie, politica, ajuste, filas, totBruto, totImpuestos, totNeto)
  {
    assert lista[..k + 1][..k] == lista[..k];
    var q := ElegirCantidad(lista[k], politica, ajuste).value;
    var f := Fila(lista[k], q, numserie, numpedido, subserie, |filas| + 1);
    assert (filas + [f])[..|filas|] == filas;
  }

  /**
   * The line loop of one order: one row per line with a positive quantity,
   * numbered from 1, with the header totals accumulated row by row. `valido` is
   * false when a line's quantity cannot be computed (the program raises there).
   */
  method LineasDelPedido(lista: seq<SugeridoLinea>, numserie: string, numpedido: int, subserie: string,
                         politica: string, ajuste: string)
    returns (valido: bool, filasGrupo: seq<LineaPedido>, totBruto: real, totImpuestos: real, totNeto: real)
    ensures valido <==> CantidadesValidas(lista, politica, ajuste)
    ensures valido ==> filasGrupo == FilasDeGrupo(lista, numserie, numpedido, subserie, politica, ajuste)
                       && totBruto == SumaSinIva(filasGrupo) && totImpuestos == SumaIva(filasGrupo)
                       && totNeto == SumaTotal(filasGrupo)
  {
    totBruto, totImpuestos, totNeto := 0.0, 0.0, 0.0;
    var numlinea := 0;
    filasGrupo := [];
    var k := 0;
    while k < |lista|
      invariant 0 <= k <= |lista| && numlinea == |filasGrupo|
      invariant CantidadesValidas(lista[..k], politica, ajuste)
      invariant Acumulado(lista, k, numserie, numpedido, subserie, politica, ajuste, filasGrupo, totBruto, totImpuestos, totNeto)
    {
      var lin := lista[k];
      var q := ElegirCantidad(lin, politica, ajuste);
      if q.Err? {
        assert !CantidadesValidas(lista, politica, ajuste);
        return false, filasGrupo, totBruto, totImpuestos, totNeto;
      }
      assert lista[..k + 1][..k] == lista[..k];
      AcumuladoPaso(lista, k, numserie, numpedido, subserie, politica, ajuste, filasGrupo, totBruto, totImpuestos, totNeto);
      if q.value > 0.0 {
        numlinea := numlinea + 1;
        var f := Fila(lin, q.value, numserie, numpedido, subserie, numlinea);
        totBruto := totBruto + f.importeSinIva;
        totImpuestos := totImpuestos + f.importeIva;
        totNeto := totNeto + f.totalLinea;
        filasGrupo := filasGrupo + [f];
      }
      k := k + 1;
    }
    assert lista[..|lista|] == lista;
    valido := true;
  }

  /**
   * `crear_pedido_compra_desde_lote`: groups the lines by warehouse, writes one
   * order per group with consecutive numbers after the largest one in the
   * series, accumulates its totals line by line, and afterwards marks the
   * ordered lines ORDENADA and the lot COMPLETADO. Any exception leaves nothing written.
   */
  method CrearPedidoCompraDesdeLote(lote: SugeridoLote, lineas: seq<SugeridoLinea>, existentes: seq<int>,
                                    numserie: string, subserie: string, politica: string, ajuste: string)
    returns (r: Result<Resultado>)
    ensures r.Err? <==> Validar(lote, lineas, politica, ajuste).Err?
    ensures r.Err? ==> r.error == Validar(lote, lineas, politica, ajuste).error
    ensures r.Ok? ==> r.value == Esperado(lote, lineas, MaxONada(existentes), numserie, subserie, politica, ajuste)
  {
    if lote.proveedor.None? {
      return Err(SIN_PROVEEDOR);
    }
    var cod := CodigoProveedor(lote.proveedor.value);
    if cod.None? || cod.value == "" {
      return Err(SIN_CODIGO);
    }
    if lineas == [] {
      return Err(SIN_LINEAS);
    }

    var orden, grupos := Agrupar(lineas);
    var codprove := ParseInt(cod.value);
    if codprove.None? {
      // int(codprove) in the header insert of the first order, before any row
      return Err(CODIGO_NO_NUMERICO);
    }
    var valido, pedidos, filas := EscribirPedidos(lineas, orden, grupos, existentes, numserie, subserie, politica, ajuste);
    if !valido {
      GruposInvalidos(lineas, orden, politica, ajuste);
      return Err(ERROR_TIPO);
    }
    TodasValidas(lineas, orden, politica, ajuste);
    var lineasFinales := MarcarOrdenadas(lineas, IdsDe(filas));
    var loteFinal := lote.(estado := COMPLETADO, pedidosIcg := pedidos);
    return Ok(Resultado(codprove.value, pedidos, filas, lineasFinales, loteFinal));
  }

  /** `grupos.setdefault(lin.cod_almacen, []).append(lin)` over the lines, keeping the order of the keys. */
  method Agrupar(lineas: seq<SugeridoLinea>) returns (orden: seq<string>, grupos: map<string, seq<SugeridoLinea>>)
    ensures orden == Almacenes(lineas)
    ensures forall a :: a in grupos <==> a in orden
    ensures forall a :: a in grupos ==> grupos[a] == DelAlmacen(lineas, a)
  {
    orden, grupos := [], map[];
    var i := 0;
    while i < |lineas|
      invariant 0 <= i <= |lineas|
      invariant orden == Almacenes(lineas[..i])
      invariant forall a :: a in grupos <==> a in orden
      invariant forall a :: a in grupos ==> grupos[a] == DelAlmacen(lineas[..i], a)
    {
      var lin := lineas[i];
      assert lineas[..i + 1][..i] == lineas[..i];
      if lin.codAlmacen in grupos {
        grupos := grupos[lin.codAlmacen := grupos[lin.codAlmacen] + [lin]];
      } else {
        DelAlmacenVacio(lineas[..i], lin.codAlmacen);
        grupos := grupos[lin.codAlmacen := [lin]];
        orden := orden + [lin.codAlmacen];
      }
      i := i + 1;
    }
    assert lineas[..|lineas|] == lineas;
  }

  /** What the order loop has written after the first `j` warehouses. */
  predicate Escritos(lineas: seq<SugeridoLinea>, orden: seq<string>, j: int, m: int, numserie: string,
                     subserie: string, politica: string, ajuste: string, pedidos: seq<PedidoCreado>, filas: seq<LineaPedido>)
    requires 0 <= j <= |orden|
  {
    pedidos == PedidosHasta(lineas, orden, j, m, numserie, subserie, politica, ajuste)
    && filas == FilasHasta(lineas, orden, j, m, numserie, subserie, politica, ajuste)
  }

  /** One more warehouse: its header and rows extend the orders and rows written so far. */
  lemma PedidoSiguiente(lineas: seq<SugeridoLinea>, orden: seq<string>, j: int, m: int, numserie: string,
                        subserie: string, politica: string, ajuste: string, pedidos: seq<PedidoCreado>,
                        filas: seq<LineaPedido>, lista: seq<SugeridoLinea>, numpedido: int,
                        pedido: PedidoCreado, filasGrupo: seq<LineaPedido>)
    requires 0 <= j < |orden|
    requires Escritos(lineas, orden, j, m, numserie, subserie, politica, ajuste, pedidos, filas)
    requires lista == DelAlmacen(lineas, orden[j]) && numpedido == m + j + 1
    requires pedido == PedidoDeGrupo(lista, orden[j], numserie, numpedido, subserie, politica, ajuste)
    requires filasGrupo == FilasDeGrupo(lista, numserie, numpedido, subserie, politica, ajuste)
    ensures Escritos(lineas, orden, j + 1, m, numserie, subserie, politica, ajuste, pedidos + [pedido], filas + filasGrupo)
  {
    PedidosHastaPaso(lineas, orden, j, m, numserie, subserie, politica, ajuste);
    FilasHastaPaso(lineas, orden, j, m, numserie, subserie, politica, ajuste);
  }

  lemma FilasHastaPaso(lineas: seq<SugeridoLinea>, orden: seq<string>, j: int, m: int,
                       numserie: string, subserie: string, politica: string, ajuste: string)
    requires 0 <= j < |orden|
    ensures FilasHasta(lineas, orden, j + 1, m, numserie, subserie, politica, ajuste)
         == FilasHasta(lineas, orden, j, m, numserie, subserie, politica, ajuste)
            + FilasDeGrupo(DelAlmacen(lineas, orden[j]), numserie, m + j + 1, subserie, politica, ajuste)
  {
  }

  lemma GruposValidosPaso(lineas: seq<SugeridoLinea>, orden: seq<string>, j: int, politica: string, ajuste: string)
    requires 0 <= j < |orden| && GruposValidos(lineas, orden, j, politica, ajuste)
    requires CantidadesValidas(DelAlmacen(lineas, orden[j]), politica, ajuste)
    ensures GruposValidos(lineas, orden, j + 1, politica, ajuste)
  {
  }

  /**
   * One warehouse's order: the rows, then the header with the rounded totals.
   * `valido` is false when some line's quantity cannot be computed.
   */
  method EscribirPedido(lista: seq<SugeridoLinea>, almacen: string, numserie: string, numpedido: int,
                        subserie: string, politica: string, ajuste: string)
    returns (valido: bool, pedido: PedidoCreado, filasGrupo: seq<LineaPedido>)
    ensures valido <==> CantidadesValidas(lista, politica, ajuste)
    ensures valido ==> pedido == PedidoDeGrupo(lista, almacen, numserie, numpedido, subserie, politica, ajuste)
                       && filasGrupo == FilasDeGrupo(lista, numserie, numpedido, subserie, politica, ajuste)
  {
    var totBruto, totImpuestos, totNeto;
    valido, filasGrupo, totBruto, totImpuestos, totNeto := LineasDelPedido(lista, numserie, numpedido, subserie, politica, ajuste);
    pedido := PedidoCreado(almacen, numserie, numpedido, subserie,
                           Round2(Some(totBruto)), Round2(Some(totImpuestos)), Round2(Some(totNeto)));
  }

  /**
   * The order loop: for each warehouse in turn, the next free number in the
   * series, its rows and its header. `valido` is false when some line's quantity
   * cannot be computed, in which case the transaction is rolled back.
   */
  method EscribirPedidos(lineas: seq<SugeridoLinea>, orden: seq<string>, grupos: map<string, seq<SugeridoLinea>>,
                         existentes: seq<int>, numserie: string, subserie: string, politica: string, ajuste: string)
    returns (valido: bool, pedidos: seq<PedidoCreado>, filas: seq<LineaPedido>)
    requires forall a :: a in grupos <==> a in orden
    requires forall a :: a in grupos ==> grupos[a] == DelAlmacen(lineas, a)
    ensures valido <==> GruposValidos(lineas, orden, |orden|, politica, ajuste)
    ensures valido ==> pedidos == PedidosHasta(lineas, orden, |orden|, MaxONada(existentes), numserie, subserie, politica, ajuste)
                       && filas == FilasHasta(lineas, orden, |orden|, MaxONada(existentes), numserie, subserie, politica, ajuste)
  {
    var m := MaxONada(existentes);
    var numeros := existentes;
    pedidos, filas := [], [];
    var j := 0;
    while j < |orden|
      invariant 0 <= j <= |orden| && MaxONada(numeros) == m + j
      invariant GruposValidos(lineas, orden, j, politica, ajuste)
      invariant Escritos(lineas, orden, j, m, numserie, subserie, politica, ajuste, pedidos, filas)
    {
      var ok;
      ok, pedidos, filas, numeros := EscribirSiguiente(lineas, orden, grupos, j, m, numeros, numserie, subserie,
                                                        politica, ajuste, pedidos, filas);
      if !ok {
        valido := false;
        return;
      }
      j := j + 1;
    }
    valido := true;
  }

  /** One warehouse of the loop: its number, header and rows, or the failure of its group. */
  method EscribirSiguiente(lineas: seq<SugeridoLinea>, orden: seq<string>, grupos: map<string, seq<SugeridoLinea>>,
                           j: int, m: int, numeros: seq<int>, numserie: string, subserie: string,
                           politica: string, ajuste: string, pedidos: seq<PedidoCreado>, filas: seq<LineaPedido>)
    returns (ok: bool, pedidos': seq<PedidoCreado>, filas': seq<LineaPedido>, numeros': seq<int>)
    requires 0 <= j < |orden| && orden[j] in grupos && grupos[orden[j]] == DelAlmacen(lineas, orden[j])
    requires MaxONada(numeros) == m + j
    requires GruposValidos(lineas, orden, j, politica, ajuste)
    requires Escritos(lineas, orden, j, m, numserie, subserie, politica, ajuste, pedidos, filas)
    ensures ok <==> CantidadesValidas(DelAlmacen(lineas, orden[j]), politica, ajuste)
    ensures ok ==> MaxONada(numeros') == m + j + 1 && GruposValidos(lineas, orden, j + 1, politica, ajuste)
                   && Escritos(lineas, orden, j + 1, m, numserie, subserie, politica, ajuste, pedidos', filas')
  {
    var almacen := orden[j];
    var numpedido := NextNumPedido(numeros);
    var lista := grupos[almacen];
    var pedido, filasGrupo;
    ok, pedido, filasGrupo := EscribirPedido(lista, almacen, numserie, numpedido, subserie, politica, ajuste);
    pedidos', filas', numeros' := pedidos, filas, numeros;
    if ok {
      PedidoSiguiente(lineas, orden, j, m, numserie, subserie, politica, ajuste, pedidos, filas, lista, numpedido,
                      pedido, filasGrupo);
      GruposValidosPaso(lineas, orden, j, politica, ajuste);
      pedidos', filas' := pedidos + [pedido], filas + filasGrupo;
      MaxAgregar(numeros, numpedido);
      numeros' := numeros + [numpedido];
    }
  }

  /** A group with a failing line makes the lot fail. */
  lemma GruposInvalidos(lineas: seq<SugeridoLinea>, orden: seq<string>, politica: string, ajuste: string)
    requires !GruposValidos(lineas, orden, |orden|, politica, ajuste)
    ensures !CantidadesValidas(lineas, politica, ajuste)
  {
    var jj :| 0 <= jj < |orden| && !CantidadesValidas(DelAlmacen(lineas, orden[jj]), politica, ajuste);
    GrupoValido(lineas, orden[jj], politica, ajuste);
  }

  /** Every line is in one of the groups, so valid groups make all the lines valid. */
  lemma TodasValidas(lineas: seq<SugeridoLinea>, orden: seq<string>, politica: string, ajuste: string)
    requires orden == Almacenes(lineas)
    requires GruposValidos(lineas, orden, |orden|, politica, ajuste)
    ensures CantidadesValidas(lineas, politica, ajuste)
  {
    AlmacenesExactos(lineas);
    forall i | 0 <= i < |lineas|
      ensures ElegirCantidad(lineas[i], politica, ajuste).Ok?
    {
      var a := lineas[i].codAlmacen;
      var jj :| 0 <= jj < |orden| && orden[jj] == a;
      EnSuGrupo(lineas, i);
      var g := DelAlmacen(lineas, a);
      var t :| 0 <= t < |g| && g[t] == lineas[i];
    }
  }

  // ------------------------------------------------------ Properties of a run

  /** The ids of the lines that order something, in order. */
  function IdsEmitidas(lista: seq<SugeridoLinea>, politica: string, ajuste: string): seq<int>
  {
    if lista == [] then []
    else
      var lin := lista[|lista| - 1];
      IdsEmitidas(lista[..|lista| - 1], politica, ajuste) + (if Emitida(lin, politica, ajuste) then [lin.id] else [])
  }

  /** The rows of a group are exactly its lines that order something. */
  lemma {:induction false} IdsDeGrupo(lista: seq<SugeridoLinea>, numserie: string, numpedido: int,
                                      subserie: string, politica: string, ajuste: string)
    ensures IdsDe(FilasDeGrupo(lista, numserie, numpedido, subserie, politica, ajuste)) == IdsEmitidas(lista, politica, ajuste)
  {
    if lista != [] {
      var previo := lista[..|lista| - 1];
      assert forall i :: 0 <= i < |previo| ==> previo[i] == lista[i];
      IdsDeGrupo(previo, numserie, numpedido, subserie, politica, ajuste);
      var prev := FilasDeGrupo(previo, numserie, numpedido, subserie, politica, ajuste);
      var lin := lista[|lista| - 1];
      if Emitida(lin, politica, ajuste) {
        IdsAgregar(prev, [Fila(lin, ElegirCantidad(lin, politica, ajuste).value, numserie, numpedido, subserie, |prev| + 1)]);
      }
    }
  }

  lemma {:induction false} EmitidaEnIds(lista: seq<SugeridoLinea>, politica: string, ajuste: string, x: SugeridoLinea)
    requires x in lista && Emitida(x, politica, ajuste)
    ensures x.id in IdsEmitidas(lista, politica, ajuste)
  {
    var previo := lista[..|lista| - 1];
    if x != lista[|lista| - 1] {
      assert lista == previo + [lista[|lista| - 1]];
      assert x in previo;
      EmitidaEnIds(previo, politica, ajuste, x);
    }
  }

  lemma {:induction false} IdsEmitidasOrigen(lista: seq<SugeridoLinea>, politica: string, ajuste: string, id: int)
    ensures id in IdsEmitidas(lista, politica, ajuste) ==>
      exists t :: 0 <= t < |lista| && lista[t].id == id && Emitida(lista[t], politica, ajuste)
  {
    if lista != [] {
      var previo := lista[..|lista| - 1];
      IdsEmitidasOrigen(previo, politica, ajuste, id);
      assert forall t :: 0 <= t < |previo| ==> previo[t] == lista[t];
    }
  }

  /** The ids of the rows of the first `j` orders. */
  function IdsHasta(lineas: seq<SugeridoLinea>, orden: seq<string>, j: int, politica: string, ajuste: string): seq<int>
    requires 0 <= j <= |orden|
  {
    if j == 0 then []
    else IdsHasta(lineas, orden, j - 1, politica, ajuste) + IdsEmitidas(DelAlmacen(lineas, orden[j - 1]), politica, ajuste)
  }

  lemma {:induction false} IdsDeFilasHasta(lineas: seq<SugeridoLinea>, orden: seq<string>, j: int, m: int,
                                           numserie: string, subserie: string, politica: string, ajuste: string)
    requires 0 <= j <= |orden|
    ensures IdsDe(FilasHasta(lineas, orden, j, m, numserie, subserie, politica, ajuste)) == IdsHasta(lineas, orden, j, politica, ajuste)
  {
    if j > 0 {
      IdsDeFilasHasta(lineas, orden, j - 1, m, numserie, subserie, politica, ajuste);
      var g := DelAlmacen(lineas, orden[j - 1]);
      var antes := FilasHasta(lineas, orden, j - 1, m, numserie, subserie, politica, ajuste);
      var nuevas := FilasDeGrupo(g, numserie, m + j, subserie, politica, ajuste);
      assert FilasHasta(lineas, orden, j, m, numserie, subserie, politica, ajuste) == antes + nuevas;
      IdsDeGrupo(g, numserie, m + j, subserie, politica, ajuste);
      IdsAgregar(antes, nuevas);
    }
  }

  /** Every id written belongs to a line of the lot that orders something. */
  lemma {:induction false} IdsHastaOrigen(lineas: seq<SugeridoLinea>, orden: seq<string>, j: int,
                                          politica: string, ajuste: string, id: int)
    requires 0 <= j <= |orden|
    ensures id in IdsHasta(lineas, orden, j, politica, ajuste) ==>
      exists i :: 0 <= i < |lineas| && lineas[i].id == id && Emitida(lineas[i], politica, ajuste)
  {
    if j > 0 {
      IdsHastaOrigen(lineas, orden, j - 1, politica, ajuste, id);
      var g := DelAlmacen(lineas, orden[j - 1]);
      IdsEmitidasOrigen(g, politica, ajuste, id);
      DelAlmacenOrigen(lineas, orden[j - 1]);
      if id in IdsEmitidas(g, politica, ajuste) {
        var t :| 0 <= t < |g| && g[t].id == id && Emitida(g[t], politica, ajuste);
        assert g[t] in lineas;
        var i :| 0 <= i < |lineas| && lineas[i] == g[t];
      }
    }
  }

  /** Every line of the first `j` warehouses that orders something has its id written. */
  lemma {:induction false} EmitidaEnIdsHasta(lineas: seq<SugeridoLinea>, orden: seq<string>, j: int,
                                             politica: string, ajuste: string, i: int)
    requires 0 <= j <= |orden| && 0 <= i < |lineas|
    requires Emitida(lineas[i], politica, ajuste) && lineas[i].codAlmacen in orden[..j]
    ensures lineas[i].id in IdsHasta(lineas, orden, j, politica, ajuste)
  {
    assert orden[..j] == orden[..j - 1] + [orden[j - 1]];
    if lineas[i].codAlmacen in orden[..j - 1] {
      EmitidaEnIdsHasta(lineas, orden, j - 1, politica, ajuste, i);
    } else {
      EnSuGrupo(lineas, i);
      EmitidaEnIds(DelAlmacen(lineas, orden[j - 1]), politica, ajuste, lineas[i]);
    }
  }

  /** The `jj`-th order written is for the `jj`-th warehouse, numbered consecutively after `m`, and balances. */
  lemma PedidoNumerado(lineas: seq<SugeridoLinea>, orden: seq<string>, m: int, numserie: string,
                       subserie: string, politica: string, ajuste: string, jj: int)
    requires 0 <= jj < |orden|
    ensures var p := PedidosHasta(lineas, orden, |orden|, m, numserie, subserie, politica, ajuste)[jj];
            p.codAlmacen == orden[jj] && p.numpedido == m + jj + 1
            && p.SuPedido() == Supedido(numserie, m + jj + 1)
            && p.totNeto == p.totBruto + p.totImpuestos
  {
    TotalesCuadran(DelAlmacen(lineas, orden[jj]), orden[jj], numserie, m + jj + 1, subserie, politica, ajuste);
  }

  /** One order per distinct warehouse, in order of first appearance, numbered consecutively after `m`. */
  lemma UnPedidoPorAlmacen(lote: SugeridoLote, lineas: seq<SugeridoLinea>, m: int, numserie: string,
                           subserie: string, politica: string, ajuste: string, jj: int)
    requires Validar(lote, lineas, politica, ajuste).Ok?
    requires 0 <= jj < |Almacenes(lineas)|
    ensures var r := Esperado(lote, lineas, m, numserie, subserie, politica, ajuste);
            var orden := Almacenes(lineas);
            |r.pedidos| == |orden| >= 1
            && r.pedidos[jj].codAlmacen == orden[jj] && r.pedidos[jj].numpedido == m + jj + 1
            && r.pedidos[jj].SuPedido() == Supedido(numserie, m + jj + 1)
            && r.pedidos[jj].totNeto == r.pedidos[jj].totBruto + r.pedidos[jj].totImpuestos
            && r.lote.estado == COMPLETADO && r.lote.pedidosIcg == r.pedidos
  {
    var orden := Almacenes(lineas);
    var r := Esperado(lote, lineas, m, numserie, subserie, politica, ajuste);
    var pedidos := PedidosHasta(lineas, orden, |orden|, m, numserie, subserie, politica, ajuste);
    assert r.pedidos == pedidos && r.lote.pedidosIcg == pedidos && r.lote.estado == COMPLETADO;
    AlmacenesExactos(lineas);
    assert lineas[0].codAlmacen in orden;
    PedidoNumerado(lineas, orden, m, numserie, subserie, politica, ajuste, jj);
  }

  /**
   * After a run, a line is ORDENADA exactly when it ordered something (line ids
   * being distinct), and every other line is left as it was.
   */
  lemma OrdenadasExactas(lote: SugeridoLote, lineas: seq<SugeridoLinea>, m: int, numserie: string,
                         subserie: string, politica: string, ajuste: string, i: int)
    requires Validar(lote, lineas, politica, ajuste).Ok?
    requires forall a, b :: 0 <= a < b < |lineas| ==> lineas[a].id != lineas[b].id
    requires 0 <= i < |lineas|
    ensures var r := Esperado(lote, lineas, m, numserie, subserie, politica, ajuste);
            |r.lineas| == |lineas|
            && (Emitida(lineas[i], politica, ajuste) ==> r.lineas[i] == lineas[i].(estadoLinea := Some(ORDENADA)))
            && (!Emitida(lineas[i], politica, ajuste) ==> r.lineas[i] == lineas[i])
  {
    var orden := Almacenes(lineas);
    var ids := IdsDe(FilasHasta(lineas, orden, |orden|, m, numserie, subserie, politica, ajuste));
    IdsDeFilasHasta(lineas, orden, |orden|, m, numserie, subserie, politica, ajuste);
    if Emitida(lineas[i], politica, ajuste) {
      AlmacenesExactos(lineas);
      assert orden[..|orden|] == orden;
      EmitidaEnIdsHasta(lineas, orden, |orden|, politica, ajuste, i);
    } else {
      IdsHastaOrigen(lineas, orden, |orden|, politica, ajuste, lineas[i].id);
      forall i2 | 0 <= i2 < |lineas| && Emitida(lineas[i2], politica, ajuste)
        ensures lineas[i2].id != lineas[i].id
      {
        assert i2 != i;
      }
    }
  }
}

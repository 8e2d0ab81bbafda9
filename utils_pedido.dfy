/**
 * The order helpers of `Compras/comodin/utils_pedido.py`: the quantity taken
 * from the internal suggestion, the tax, charge, discount, sequence and
 * payment look-ups against ICG, and the classification write-backs.
 *
 * Each query is a parameter: `Falla` when executing it raises, otherwise the
 * rows it returns. The write-backs return the UPDATE they would execute.
 */
module UtilsPedido {
  import opened Resultados
  import opened Decimales
  import opened Textos
  import opened Lineas
  import CalculoSugerido
  import PedidosIcg

  /** The outcome of running one query. */
  datatype Consulta<T> = Falla | Filas(filas: T)

  // ----------------------------------------------------------- Quantity

  /** `_elegir_cantidad`: the internal suggestion rounded to the pack; the policy is ignored. */
  function ElegirCantidad(lin: SugeridoLinea, ajuste: string): (r: real)
    ensures r >= 0.0
    ensures lin.sugeridoInterno.GetOr(0.0) <= 0.0 ==> r == 0.0
  {
    PedidosIcg.AjustarAEmbalaje(lin.sugeridoInterno.GetOr(0.0), CalculoSugerido.EmbalajeNormalizado(lin.embalaje), ajuste)
  }

  /**
   * The quantity is a multiple of the pack within one pack of the internal
   * suggestion, and it is what the service's 'prefer_interno' policy orders
   * whenever the internal suggestion is positive.
   */
  lemma CantidadComoInterno(lin: SugeridoLinea, ajuste: string)
    ensures var q := lin.sugeridoInterno.GetOr(0.0);
            var pack := CalculoSugerido.EmbalajeNormalizado(lin.embalaje);
            var r := ElegirCantidad(lin, ajuste);
            (q > 0.0 && pack == 1 ==> r == q)
            && (q > 0.0 && pack > 1 ==>
                  (r == Multiplo(Piso(q / pack as real), pack) || r == Multiplo(Techo(q / pack as real), pack))
                  && q - pack as real < r < q + pack as real)
            && (PedidosIcg.Positivo(lin.sugeridoInterno) ==>
                  PedidosIcg.ElegirCantidad(lin, PedidosIcg.PREFER_INTERNO, ajuste) == Ok(r))
  {
    PedidosIcg.AjusteEsMultiplo(lin.sugeridoInterno.GetOr(0.0), CalculoSugerido.EmbalajeNormalizado(lin.embalaje), ajuste);
  }

  // ---------------------------------------------------------------- Tax

  /** The row of the ARTICULOS + IMPUESTOS query: `IMPUESTOCOMPRA` and `IVA`. */
  datatype FilaImpuesto = FilaImpuesto(id: Option<int>, valor: Option<real>)

  /**
   * `_impuestos_de_linea(cursor, lin)`: the tax type and rate from ICG (a
   * missing or zero type counting as 4 and a missing rate as 0), (4, 0) when
   * the article is not found, and the line's own rate when the query fails.
   */
  function ImpuestosIcg(consulta: Consulta<Option<FilaImpuesto>>, lin: SugeridoLinea): (r: PedidosIcg.Impuesto)
    ensures consulta == Filas(None) ==> r == PedidosIcg.Impuesto(4, 0.0)
    ensures consulta.Filas? && consulta.filas.Some? ==>
      var f := consulta.filas.value;
      r.tipo == (if f.id.Some? && f.id.value != 0 then f.id.value else 4)
      && r.pct == f.valor.GetOr(0.0)
    ensures consulta.Falla? ==> (r.tipo == 4 <==> r.pct == 0.0) && (r.tipo == 4 || r.tipo == 1)
  {
    match consulta
    case Falla => PedidosIcg.ImpuestosDeLinea(lin)
    case Filas(None) => PedidosIcg.Impuesto(4, 0.0)
    case Filas(Some(f)) =>
      PedidosIcg.Impuesto(if f.id.Some? && f.id.value != 0 then f.id.value else 4, f.valor.GetOr(0.0))
  }

  /** On a failed query the helper behaves as the service's own `_impuestos_de_linea`. */
  lemma ImpuestosRespaldo(lin: SugeridoLinea)
    ensures ImpuestosIcg(Falla, lin) == PedidosIcg.ImpuestosDeLinea(lin)
    ensures lin.iva.Some? ==> ImpuestosIcg(Falla, lin).pct == lin.iva.value
  {
  }

  // ------------------------------------------------------------- Charges

  /** The CARGOSDTOS code of each of CARGO1..CARGO6. */
  const CODIGOS_CARGO: seq<int> := [3, 34, 39, 40, 41, 42]

  /** A CARGOSDTOS row: `CODIGO` and `VISIBLECOMPRA`. */
  datatype FilaCargo = FilaCargo(codigo: int, visibleCompra: Option<string>)

  /** `str(visiblecompra).strip().upper() == "T"` (a NULL reads as "None"). */
  predicate EsVisible(v: Option<string>)
  {
    v.Some? && Upper(Strip(v.value)) == "T"
  }

  /** `visibles_por_codigo` after the rows, a later row overriding an earlier one with the same code. */
  function Visibles(filas: seq<FilaCargo>): (m: map<int, bool>)
    ensures forall c :: c in m <==> exists i :: 0 <= i < |filas| && filas[i].codigo == c
  {
    if filas == [] then map[]
    else
      var f := filas[|filas| - 1];
      Visibles(filas[..|filas| - 1])[f.codigo := EsVisible(f.visibleCompra)]
  }

  /** The value kept for charge `i`: the article's value when its code is visible and the value is not 0. */
  function Cargo(visibles: map<int, bool>, fila: seq<Option<real>>, i: nat): real
    requires i < 6 && |fila| >= 6
  {
    var codigo := CODIGOS_CARGO[i];
    if codigo in visibles && visibles[codigo] && fila[i].Some? && fila[i].value != 0.0
    then fila[i].value else 0.0
  }

  /**
   * What `_obtener_cargos_articulo` returns, as CARGO1..CARGO6: all zeros when a
   * query fails, the article is missing or its row is short (the `IndexError`
   * is caught), otherwise each visible non-zero charge.
   */
  function CargosEsperados(articulo: Consulta<Option<seq<Option<real>>>>, cargos: Consulta<seq<FilaCargo>>): (r: seq<real>)
    ensures |r| == 6
  {
    if articulo.Falla? || articulo.filas.None? || cargos.Falla? || |articulo.filas.value| < 6
    then [0.0, 0.0, 0.0, 0.0, 0.0, 0.0]
    else
      var m := Visibles(cargos.filas);
      var fila := articulo.filas.value;
      seq(6, i requires 0 <= i < 6 => Cargo(m, fila, i))
  }

  /** A charge is either 0 or the article's own value, and it is non-zero only when its code is visible for purchases. */
  lemma CargosDeArticulo(articulo: Consulta<Option<seq<Option<real>>>>, cargos: Consulta<seq<FilaCargo>>, i: nat)
    requires i < 6
    ensures var r := CargosEsperados(articulo, cargos);
            r[i] == 0.0
            || (articulo.Filas? && articulo.filas.Some? && |articulo.filas.value| >= 6
                && articulo.filas.value[i] == Some(r[i]) && cargos.Filas?
                && exists t :: 0 <= t < |cargos.filas| && cargos.filas[t].codigo == CODIGOS_CARGO[i]
                               && EsVisible(cargos.filas[t].visibleCompra))
  {
    var r := CargosEsperados(articulo, cargos);
    if r[i] != 0.0 {
      VisibleDeFila(cargos.filas, CODIGOS_CARGO[i]);
    }
  }

  /**
   * Conversely, with both queries answered, charge `i` is the article's
   * value exactly when the last row carrying its code is visible and the
   * value is present and non-zero.
   */
  lemma CargoDeUltimaFila(articulo: Consulta<Option<seq<Option<real>>>>, cargos: Consulta<seq<FilaCargo>>, i: nat, t: nat)
    requires i < 6
    requires articulo.Filas? && articulo.filas.Some? && |articulo.filas.value| >= 6 && cargos.Filas?
    requires t < |cargos.filas| && cargos.filas[t].codigo == CODIGOS_CARGO[i]
    requires forall u :: t < u < |cargos.filas| ==> cargos.filas[u].codigo != CODIGOS_CARGO[i]
    ensures var v := articulo.filas.value[i];
            CargosEsperados(articulo, cargos)[i]
            == if EsVisible(cargos.filas[t].visibleCompra) && v.Some? && v.value != 0.0 then v.value else 0.0
  {
    VisibleDeUltima(cargos.filas, t);
  }

  /** The entry of a code is the visibility of the last row carrying it. */
  lemma {:induction false} VisibleDeUltima(filas: seq<FilaCargo>, t: nat)
    requires t < |filas|
    requires forall u :: t < u < |filas| ==> filas[u].codigo != filas[t].codigo
    ensures filas[t].codigo in Visibles(filas)
    ensures Visibles(filas)[filas[t].codigo] == EsVisible(filas[t].visibleCompra)
    decreases |filas|
  {
    var n := |filas| - 1;
    if t < n {
      assert filas[..n][t] == filas[t];
      VisibleDeUltima(filas[..n], t);
    }
  }

  /** A code marked visible owes it to one of the rows. */
  lemma {:induction false} VisibleDeFila(filas: seq<FilaCargo>, c: int)
    ensures c in Visibles(filas) && Visibles(filas)[c] ==>
      exists t :: 0 <= t < |filas| && filas[t].codigo == c && EsVisible(filas[t].visibleCompra)
  {
    if filas != [] {
      var previo := filas[..|filas| - 1];
      VisibleDeFila(previo, c);
      if c in Visibles(filas) && Visibles(filas)[c] && filas[|filas| - 1].codigo != c {
        var t :| 0 <= t < |previo| && previo[t].codigo == c && EsVisible(previo[t].visibleCompra);
        assert filas[t] == previo[t];
      }
    }
  }

  /** The `visibles_por_codigo` loop. */
  method LeerVisibles(filas: seq<FilaCargo>) returns (m: map<int, bool>)
    ensures m == Visibles(filas)
  {
    m := map[];
    var k := 0;
    while k < |filas|
      invariant 0 <= k <= |filas|
      invariant m == Visibles(filas[..k])
    {
      assert filas[..k + 1][..k] == filas[..k];
      m := m[filas[k].codigo := EsVisible(filas[k].visibleCompra)];
      k := k + 1;
    }
    assert filas[..|filas|] == filas;
  }

  /** `_obtener_cargos_articulo(cursor, codigo_articulo)`. */
  method ObtenerCargosArticulo(articulo: Consulta<Option<seq<Option<real>>>>, cargos: Consulta<seq<FilaCargo>>)
    returns (r: seq<real>)
    ensures r == CargosEsperados(articulo, cargos)
  {
    r := [0.0, 0.0, 0.0, 0.0, 0.0, 0.0];
    if articulo.Falla? || articulo.filas.None? || cargos.Falla? {
      return;
    }
    var fila := articulo.filas.value;
    var m := LeerVisibles(cargos.filas);
    if |fila| < 6 {
      return;
    }
    var i := 0;
    while i < 6
      invariant 0 <= i <= 6 && |r| == 6
      invariant forall t :: 0 <= t < i ==> r[t] == Cargo(m, fila, t)
      invariant forall t :: i <= t < 6 ==> r[t] == 0.0
    {
      var codigo := CODIGOS_CARGO[i];
      var visible := if codigo in m then m[codigo] else false;
      if visible && fila[i].Some? && fila[i].value != 0.0 {
        r := r[i := fila[i].value];
      } else {
        r := r[i := 0.0];
      }
      i := i + 1;
    }
  }

  // ---------------------------------------------------- Warehouse column

  /** The ICG classification column of each warehouse. */
  const CAMPO_POR_ALMACEN: map<string, string> := map[
    "MERCASUR CALDAS" := "CLASIFICACION",
    "MERCASUR CENTRO" := "CLASIFICACION2",
    "MERCASUR CABECERA" := "CLASIFICACION3",
    "MERCASUR SOTOMAYOR" := "CLASIFICACION5"]

  /** The four columns, in the order the all-columns write-back sets them. */
  const CAMPOS_CLASIFICACION: seq<string> := ["CLASIFICACION", "CLASIFICACION2", "CLASIFICACION3", "CLASIFICACION5"]

  /** `_get_campo_clasificacion_por_almacen`: the column of a warehouse name, upper-cased then stripped. */
  function CampoClasificacion(almacen: Option<string>): (r: Option<string>)
    ensures r.Some? <==> Strip(Upper(almacen.GetOr(""))) in CAMPO_POR_ALMACEN
    ensures r.Some? ==> r.value in CAMPOS_CLASIFICACION
  {
    var a := Strip(Upper(almacen.GetOr("")));
    if a in CAMPO_POR_ALMACEN then Some(CAMPO_POR_ALMACEN[a]) else None
  }

  /** The look-up ignores case: an upper-cased name finds the same column. */
  lemma CampoSinMayusculas(s: string)
    ensures CampoClasificacion(Some(Upper(s))) == CampoClasificacion(Some(s))
  {
    UpperIdempotente(s);
  }

  // -------------------------------------------- Classification write-back

  /** `UPDATE ARTICULOSCAMPOSLIBRES SET <campos> = 'I' WHERE CODARTICULO = codart`. */
  datatype Actualizacion = Actualizacion(campos: seq<string>, valor: string, codart: PedidosIcg.CodArticulo)

  /** `nombre_almacen or almacen`; the line has no separate `almacen` attribute, so that is `None`. */
  function NombreAlmacen(lin: SugeridoLinea): Option<string>
  {
    if lin.nombreAlmacen.Some? && lin.nombreAlmacen.value != "" then lin.nombreAlmacen else None
  }

  /** `_actualizar_clasificacion_si_activo`: an inactive line of a known warehouse gets 'I' in all four columns. */
  function ActualizarSiActivo(lin: SugeridoLinea): (r: Option<Actualizacion>)
    ensures r.Some? <==> !lin.continuidadActivo && CampoClasificacion(NombreAlmacen(lin)).Some?
    ensures r.Some? ==> r.value.campos == CAMPOS_CLASIFICACION && r.value.valor == "I"
                        && r.value.codart == PedidosIcg.CodigoIcg(lin.codigoArticulo)
  {
    if lin.continuidadActivo then None
    else if CampoClasificacion(NombreAlmacen(lin)).None? then None
    else Some(Actualizacion(CAMPOS_CLASIFICACION, "I", PedidosIcg.CodigoIcg(lin.codigoArticulo)))
  }

  /**
   * `_actualizar_clasificacion_Almacen`: when the class changed, 'I' (not the
   * new class) is written to that warehouse's column only.
   */
  function ActualizarClasificacionAlmacen(lin: SugeridoLinea): (r: Option<Actualizacion>)
    ensures r.Some? <==> lin.clasificacion.Some? && lin.clasificacionOriginal.Some?
                         && lin.clasificacion != lin.clasificacionOriginal
                         && CampoClasificacion(NombreAlmacen(lin)).Some?
    ensures r.Some? ==> r.value.campos == [CampoClasificacion(NombreAlmacen(lin)).value] && r.value.valor == "I"
  {
    if lin.clasificacion.None? || lin.clasificacionOriginal.None? || lin.clasificacion == lin.clasificacionOriginal
    then None
    else
      var campo := CampoClasificacion(NombreAlmacen(lin));
      if campo.None? then None
      else Some(Actualizacion([campo.value], "I", PedidosIcg.CodigoIcg(lin.codigoArticulo)))
  }

  /** The per-warehouse write touches one of the four columns, whatever the new class is. */
  lemma UnaSolaColumna(lin: SugeridoLinea, otra: string)
    ensures ActualizarClasificacionAlmacen(lin).Some? ==>
      |ActualizarClasificacionAlmacen(lin).value.campos| == 1
      && ActualizarClasificacionAlmacen(lin).value.campos[0] in CAMPOS_CLASIFICACION
    ensures lin.clasificacionOriginal.Some? && otra != lin.clasificacionOriginal.value
            && ActualizarClasificacionAlmacen(lin).Some? ==>
      ActualizarClasificacionAlmacen(lin.(clasificacion := Some(otra))) == ActualizarClasificacionAlmacen(lin)
  {
  }

  // ------------------------------------------------- Supplier discounts

  /** A CARGOSDTOSPROVEEDOR row: `CODIGO` and `VALOR` (a percentage). */
  datatype FilaDescuento = FilaDescuento(codigo: int, valor: Option<real>)

  /** `abs(Decimal(str(valor or 0)).quantize(Decimal("0.01")))`. */
  function ValorDescuento(valor: Option<real>): (v: real)
    ensures v >= 0.0 && Centesimal(v)
  {
    var q := Redondear2Par(valor.GetOr(0.0));
    if q < 0.0 then NegarCentesimal(q); -q else q
  }

  /** The rows kept, as (code, value), in order. */
  function Descuentos(filas: seq<FilaDescuento>): (r: seq<(int, real)>)
    ensures |r| <= |filas|
  {
    if filas == [] then []
    else
      var f := filas[|filas| - 1];
      var v := ValorDescuento(f.valor);
      Descuentos(filas[..|filas| - 1]) + (if v > 0.0 then [(f.codigo, v)] else [])
  }

  /** `_obtener_descuentos_proveedor(cursor, codproveedor)`: `[]` when the query fails. */
  method ObtenerDescuentosProveedor(consulta: Consulta<seq<FilaDescuento>>) returns (res: seq<(int, real)>)
    ensures consulta.Falla? ==> res == []
    ensures consulta.Filas? ==> res == Descuentos(consulta.filas)
  {
    res := [];
    if consulta.Falla? {
      return;
    }
    var filas := consulta.filas;
    var k := 0;
    while k < |filas|
      invariant 0 <= k <= |filas|
      invariant res == Descuentos(filas[..k])
    {
      assert filas[..k + 1][..k] == filas[..k];
      var v := ValorDescuento(filas[k].valor);
      if v > 0.0 {
        res := res + [(filas[k].codigo, v)];
      }
      k := k + 1;
    }
    assert filas[..|filas|] == filas;
  }

  /**
   * Every discount kept is positive, has two decimals and comes from a row with
   * that code; a row is kept exactly when its rounded absolute value is positive.
   */
  lemma {:induction false} DescuentosPositivos(filas: seq<FilaDescuento>)
    ensures forall t :: 0 <= t < |Descuentos(filas)| ==>
      Descuentos(filas)[t].1 > 0.0 && Centesimal(Descuentos(filas)[t].1)
      && exists i :: 0 <= i < |filas| && filas[i].codigo == Descuentos(filas)[t].0
                     && ValorDescuento(filas[i].valor) == Descuentos(filas)[t].1
    ensures |Descuentos(filas)| == CuentaPositivos(filas)
  {
    if filas != [] {
      var previo := filas[..|filas| - 1];
      DescuentosPositivos(previo);
      assert forall i :: 0 <= i < |previo| ==> previo[i] == filas[i];
      var f := filas[|filas| - 1];
      var d := Descuentos(previo);
      var r := Descuentos(filas);
      assert r == d + (if ValorDescuento(f.valor) > 0.0 then [(f.codigo, ValorDescuento(f.valor))] else []);
      forall t | 0 <= t < |r|
        ensures r[t].1 > 0.0 && Centesimal(r[t].1)
                && exists i :: 0 <= i < |filas| && filas[i].codigo == r[t].0 && ValorDescuento(filas[i].valor) == r[t].1
      {
        if t < |d| {
          assert r[t] == d[t];
          var i :| 0 <= i < |previo| && previo[i].codigo == d[t].0 && ValorDescuento(previo[i].valor) == d[t].1;
          assert filas[i] == previo[i];
        } else {
          assert r[t] == (f.codigo, ValorDescuento(f.valor));
          assert filas[|filas| - 1] == f;
        }
      }
    }
  }

  /** The number of rows whose rounded absolute value is positive. */
  function CuentaPositivos(filas: seq<FilaDescuento>): nat
  {
    if filas == [] then 0
    else CuentaPositivos(filas[..|filas| - 1]) + (if ValorDescuento(filas[|filas| - 1].valor) > 0.0 then 1 else 0)
  }

  // ----------------------------------------------- Sequence and payment

  /** `_obtener_secuencia_cargo`: the `SECUENCIA` found, else 0 (also on a NULL or a failure). */
  function SecuenciaCargo(consulta: Consulta<Option<Option<int>>>): (r: int)
    ensures consulta.Filas? && consulta.filas.Some? && consulta.filas.value.Some? ==> r == consulta.filas.value.value
    ensures !(consulta.Filas? && consulta.filas.Some? && consulta.filas.value.Some?) ==> r == 0
  {
    match consulta
    case Filas(Some(Some(s))) => s
    case _ => 0
  }

  /** The FPAGOPROVEEDOR + VENCIMFPAGO row: `CODFORMAPAGO`, `DIAS`, `CODTIPOPAGO`. */
  datatype FilaFormaPago = FilaFormaPago(codFormaPago: Option<int>, dias: Option<int>, codTipoPago: Option<int>)

  datatype FormaPago = FormaPago(codFormaPago: string, diasVencimiento: int, codTipoPago: string)

  const FORMA_PAGO_DEFECTO := FormaPago("14", 30, "10")

  /** `str(v) if v else d`: a NULL or 0 takes the default. */
  function TextoODefecto(v: Option<int>, d: string): string
  {
    if v.Some? && v.value != 0 then IntATexto(v.value) else d
  }

  /** `_obtener_forma_pago_proveedor`: each missing or zero column takes its default, and no row or a failure gives ('14', 30, '10'). */
  function FormaPagoProveedor(consulta: Consulta<Option<FilaFormaPago>>): (r: FormaPago)
    ensures !(consulta.Filas? && consulta.filas.Some?) ==> r == FORMA_PAGO_DEFECTO
    ensures consulta.Filas? && consulta.filas.Some? ==>
      var f := consulta.filas.value;
      (f.dias.Some? && f.dias.value != 0 ==> r.diasVencimiento == f.dias.value)
      && (f.dias.None? || f.dias.value == 0 ==> r.diasVencimiento == 30)
      && (f.codFormaPago.None? || f.codFormaPago.value == 0 ==> r.codFormaPago == "14")
      && (f.codTipoPago.None? || f.codTipoPago.value == 0 ==> r.codTipoPago == "10")
  {
    match consulta
    case Filas(Some(f)) =>
      FormaPago(TextoODefecto(f.codFormaPago, "14"),
                if f.dias.Some? && f.dias.value != 0 then f.dias.value else 30,
                TextoODefecto(f.codTipoPago, "10"))
    case _ => FORMA_PAGO_DEFECTO
  }

  /** A non-zero code found in ICG is written as its decimal text. */
  lemma FormaPagoCodigo(f: FilaFormaPago)
    requires f.codFormaPago.Some? && f.codFormaPago.value != 0
    ensures ParseInt(FormaPagoProveedor(Filas(Some(f))).codFormaPago) == Some(f.codFormaPago.value)
  {
    ParseIntATexto(f.codFormaPago.value);
  }
}

/**
 * `calcular_cumplimiento_presupuesto` (`Compras/services/kpi_proveedores.py`):
 * a supplier's suggested cost over one calendar month, as a percentage of
 * its monthly budget, quantized to hundredths.
 *
 * Moments are local wall-clock times (a date and the seconds since
 * midnight); the lines of the supplier and the current date are inputs.
 */
module KpiProveedores {
  import opened Resultados
  import opened Decimales
  import opened Calendario

  datatype Fecha = Fecha(anio: int, mes: int, dia: int)

  predicate FechaValida(f: Fecha)
  {
    1 <= f.mes <= 12 && 1 <= f.dia <= DiasDelMes(f.anio, f.mes)
  }

  /** A local moment: a date and the seconds elapsed since its midnight. */
  datatype Momento = Momento(fecha: Fecha, segundos: int)

  predicate MomentoValido(m: Momento)
  {
    FechaValida(m.fecha) && 0 <= m.segundos < 86400
  }

  predicate FechaAntes(a: Fecha, b: Fecha)
  {
    a.anio < b.anio || (a.anio == b.anio && (a.mes < b.mes || (a.mes == b.mes && a.dia < b.dia)))
  }

  /** Chronological order of moments. */
  predicate Antes(a: Momento, b: Momento)
  {
    FechaAntes(a.fecha, b.fecha) || (a.fecha == b.fecha && a.segundos < b.segundos)
  }

  /** `ref_date.replace(day=1)`. */
  function InicioMes(f: Fecha): Fecha
  {
    Fecha(f.anio, f.mes, 1)
  }

  /** The first day of the next month; December rolls into January of the next year. */
  function SiguienteMes(inicio: Fecha): (r: Fecha)
  {
    if inicio.mes == 12 then Fecha(inicio.anio + 1, 1, 1) else Fecha(inicio.anio, inicio.mes + 1, 1)
  }

  /** The month window: from midnight of the first day up to, not including, midnight of the next month's first day. */
  function Ventana(ref: Fecha): (w: (Momento, Momento))
  {
    (Momento(InicioMes(ref), 0), Momento(SiguienteMes(InicioMes(ref)), 0))
  }

  predicate EnVentana(m: Momento, ref: Fecha)
  {
    var w := Ventana(ref);
    !Antes(m, w.0) && Antes(m, w.1)
  }

  /** The window starts and ends on valid first days, and the start comes first. */
  lemma VentanaValida(ref: Fecha)
    requires FechaValida(ref)
    ensures var w := Ventana(ref);
            MomentoValido(w.0) && MomentoValido(w.1) && w.0.fecha.dia == 1 && w.1.fecha.dia == 1 && Antes(w.0, w.1)
  {
  }

  /** A valid moment is in the window exactly when it falls in the reference date's year and month. */
  lemma EnVentanaMismoMes(m: Momento, ref: Fecha)
    requires MomentoValido(m) && FechaValida(ref)
    ensures EnVentana(m, ref) <==> m.fecha.anio == ref.anio && m.fecha.mes == ref.mes
  {
  }

  /** A suggestion line of the supplier: when its lot was extracted, and its cost (NULL is `None`). */
  datatype LineaKpi = LineaKpi(extraccion: Momento, costoLinea: Option<real>)

  /** `Coalesce(Sum("costo_linea"), 0)` over the lines of lots extracted in the window; NULL costs add nothing. */
  function TotalMes(lineas: seq<LineaKpi>, ref: Fecha): real
  {
    if lineas == [] then 0.0
    else
      var ln := lineas[|lineas| - 1];
      TotalMes(lineas[..|lineas| - 1], ref)
      + (if EnVentana(ln.extraccion, ref) && ln.costoLinea.Some? then ln.costoLinea.value else 0.0)
  }

  /** The lines that count: extracted in the window, with a cost. */
  function Contadas(lineas: seq<LineaKpi>, ref: Fecha): (r: seq<LineaKpi>)
    ensures forall i :: 0 <= i < |r| ==> EnVentana(r[i].extraccion, ref) && r[i].costoLinea.Some?
  {
    if lineas == [] then []
    else
      var ln := lineas[|lineas| - 1];
      Contadas(lineas[..|lineas| - 1], ref) + (if EnVentana(ln.extraccion, ref) && ln.costoLinea.Some? then [ln] else [])
  }

  function SumaCostos(lineas: seq<LineaKpi>): real
    requires forall i :: 0 <= i < |lineas| ==> lineas[i].costoLinea.Some?
  {
    if lineas == [] then 0.0 else SumaCostos(lineas[..|lineas| - 1]) + lineas[|lineas| - 1].costoLinea.value
  }

  lemma {:induction false} SumaCostosConcat(a: seq<LineaKpi>, b: seq<LineaKpi>)
    requires forall i :: 0 <= i < |a| ==> a[i].costoLinea.Some?
    requires forall i :: 0 <= i < |b| ==> b[i].costoLinea.Some?
    ensures SumaCostos(a + b) == SumaCostos(a) + SumaCostos(b)
    decreases |b|
  {
    if b == [] {
      assert a + b == a;
    } else {
      var k := |b| - 1;
      assert (a + b)[..|a + b| - 1] == a + b[..k];
      SumaCostosConcat(a, b[..k]);
    }
  }

  /** The month's total is the sum of the costs of exactly the lines that count. */
  lemma {:induction false} TotalMesContadas(lineas: seq<LineaKpi>, ref: Fecha)
    ensures TotalMes(lineas, ref) == SumaCostos(Contadas(lineas, ref))
    decreases |lineas|
  {
    if lineas != [] {
      var k := |lineas| - 1;
      TotalMesContadas(lineas[..k], ref);
      var ln := lineas[k];
      var extra := if EnVentana(ln.extraccion, ref) && ln.costoLinea.Some? then [ln] else [];
      SumaCostosConcat(Contadas(lineas[..k], ref), extra);
      if extra != [] {
        assert extra[..0] == [];
      }
    }
  }

  /** Lines of lots extracted outside the window never change the total. */
  lemma {:induction false} TotalMesFuera(lineas: seq<LineaKpi>, otra: LineaKpi, ref: Fecha)
    requires !EnVentana(otra.extraccion, ref)
    ensures TotalMes(lineas + [otra], ref) == TotalMes(lineas, ref)
  {
    assert (lineas + [otra])[..|lineas|] == lineas;
  }

  /** With costs that are not negative, the total is not negative. */
  lemma {:induction false} TotalMesNoNegativo(lineas: seq<LineaKpi>, ref: Fecha)
    requires forall i :: 0 <= i < |lineas| && lineas[i].costoLinea.Some? ==> lineas[i].costoLinea.value >= 0.0
    ensures TotalMes(lineas, ref) >= 0.0
    decreases |lineas|
  {
    if lineas != [] {
      TotalMesNoNegativo(lineas[..|lineas| - 1], ref);
    }
  }

  /** `total / presupuesto * 100` when the budget is positive, else 0; a missing budget counts as 0. */
  function Porcentaje(total: real, presupuesto: Option<real>): real
  {
    var p := if presupuesto.Some? then presupuesto.value else 0.0;
    if p > 0.0 then total / p * 100.0 else 0.0
  }

  /** `calcular_cumplimiento_presupuesto`: the reference date defaults to today. */
  function CumplimientoPresupuesto(lineas: seq<LineaKpi>, presupuesto: Option<real>, refDate: Option<Fecha>, hoy: Fecha): (r: real)
    ensures Centesimal(r)
    ensures -0.005 <= r - Porcentaje(TotalMes(lineas, if refDate.Some? then refDate.value else hoy), presupuesto) <= 0.005
  {
    var ref := if refDate.Some? then refDate.value else hoy;
    Redondear2Par(Porcentaje(TotalMes(lineas, ref), presupuesto))
  }

  /** Without a positive budget the compliance is exactly 0.00. */
  lemma SinPresupuesto(lineas: seq<LineaKpi>, presupuesto: Option<real>, refDate: Option<Fecha>, hoy: Fecha)
    requires presupuesto.None? || presupuesto.value <= 0.0
    ensures CumplimientoPresupuesto(lineas, presupuesto, refDate, hoy) == 0.0
  {
    Redondear2ParCentesimal(0.0);
  }

  /** Spending exactly the budget in the month is 100.00 %. */
  lemma PresupuestoCumplido(lineas: seq<LineaKpi>, p: real, refDate: Option<Fecha>, hoy: Fecha)
    requires p > 0.0 && TotalMes(lineas, if refDate.Some? then refDate.value else hoy) == p
    ensures CumplimientoPresupuesto(lineas, Some(p), refDate, hoy) == 100.0
  {
    assert p / p * 100.0 == 100.0;
    Redondear2ParCentesimal(100.0);
  }
}

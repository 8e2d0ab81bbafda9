/**
 * The classification records of `Compras/models.py`: the states of a
 * `ProcesoClasificacion`, its text form, and the action status of an
 * `ArticuloClasificacionFinal`.
 */
module ModelosCompras {
  import opened Resultados
  import opened Textos
  import opened Decimales

  /** `ProcesoClasificacion.estado`. */
  datatype EstadoProceso = Extraccion | Procesado | Edicion | Confirmado | Actualizado

  /** The stored value of each state. */
  function CodigoEstado(e: EstadoProceso): string
  {
    match e
    case Extraccion => "extraccion"
    case Procesado => "procesado"
    case Edicion => "edicion"
    case Confirmado => "confirmado"
    case Actualizado => "actualizado"
  }

  /** The state a stored value names, if it is one of the choices. */
  function EstadoDeCodigo(s: string): (r: Option<EstadoProceso>)
  {
    if s == "extraccion" then Some(Extraccion)
    else if s == "procesado" then Some(Procesado)
    else if s == "edicion" then Some(Edicion)
    else if s == "confirmado" then Some(Confirmado)
    else if s == "actualizado" then Some(Actualizado)
    else None
  }

  /** The stored values and the states are in one-to-one correspondence. */
  lemma CodigosEstado(e: EstadoProceso, s: string)
    ensures EstadoDeCodigo(CodigoEstado(e)) == Some(e)
    ensures EstadoDeCodigo(s) == Some(e) <==> s == CodigoEstado(e)
  {
  }

  /** A new process starts in extraction. */
  const ESTADO_INICIAL := Extraccion

  /** A date and time as `fecha_inicio` holds it. */
  datatype FechaHora = FechaHora(anio: nat, mes: nat, dia: nat, hora: nat, minuto: nat)

  predicate FechaValida(f: FechaHora)
  {
    1 <= f.anio <= 9999 && 1 <= f.mes <= 12 && 1 <= f.dia <= 31 && f.hora < 24 && f.minuto < 60
  }

  /** `f"{fecha:%Y-%m-%d %H:%M}"`, with a four-digit year. */
  function FechaTexto(f: FechaHora): (s: string)
  {
    DiaTexto(f) + " " + HoraTexto(f)
  }

  function DiaTexto(f: FechaHora): string
  {
    CerosIzquierda(f.anio, 4) + "-" + CerosIzquierda(f.mes, 2) + "-" + CerosIzquierda(f.dia, 2)
  }

  function HoraTexto(f: FechaHora): string
  {
    CerosIzquierda(f.hora, 2) + ":" + CerosIzquierda(f.minuto, 2)
  }

  /** A valid date prints in 16 characters from which each of its fields can be read back. */
  lemma FechaLegible(f: FechaHora)
    requires FechaValida(f)
    ensures var s := FechaTexto(f);
            |s| == 16 && s[4] == '-' && s[7] == '-' && s[10] == ' ' && s[13] == ':'
            && Lee(s[..4], f.anio) && Lee(s[5..7], f.mes)
            && Lee(s[8..10], f.dia) && Lee(s[11..13], f.hora)
            && Lee(s[14..], f.minuto)
  {
    DiaLegible(f);
    HoraLegible(f);
    DosPartes(DiaTexto(f), f, HoraTexto(f));
  }

  lemma DosPartes(d: string, f: FechaHora, h: string)
    requires |d| == 10 && d[4] == '-' && d[7] == '-'
             && Lee(d[..4], f.anio) && Lee(d[5..7], f.mes) && Lee(d[8..10], f.dia)
    requires |h| == 5 && h[2] == ':' && Lee(h[..2], f.hora) && Lee(h[3..], f.minuto)
    ensures var s := d + " " + h;
            |s| == 16 && s[4] == '-' && s[7] == '-' && s[10] == ' ' && s[13] == ':'
            && Lee(s[..4], f.anio) && Lee(s[5..7], f.mes)
            && Lee(s[8..10], f.dia) && Lee(s[11..13], f.hora)
            && Lee(s[14..], f.minuto)
  {
    var s := d + " " + h;
    assert s[..4] == d[..4] && s[5..7] == d[5..7] && s[8..10] == d[8..10];
    assert s[11..13] == h[..2] && s[14..] == h[3..];
  }

  lemma DiaLegible(f: FechaHora)
    requires FechaValida(f)
    ensures var d := DiaTexto(f);
            |d| == 10 && d[4] == '-' && d[7] == '-'
            && Lee(d[..4], f.anio) && Lee(d[5..7], f.mes)
            && Lee(d[8..10], f.dia)
  {
    CampoLegible(f.anio, 4);
    CampoLegible(f.mes, 2);
    CampoLegible(f.dia, 2);
    TresCampos(CerosIzquierda(f.anio, 4), f.anio, CerosIzquierda(f.mes, 2), f.mes, CerosIzquierda(f.dia, 2), f.dia);
  }

  lemma TresCampos(a: string, x: nat, m: string, y: nat, e: string, z: nat)
    requires |a| == 4 && Lee(a, x) && |m| == 2 && Lee(m, y) && |e| == 2 && Lee(e, z)
    ensures var d := a + "-" + m + "-" + e;
            |d| == 10 && d[4] == '-' && d[7] == '-' && Lee(d[..4], x) && Lee(d[5..7], y) && Lee(d[8..10], z)
  {
    var d := a + "-" + m + "-" + e;
    assert d[..4] == a;
    assert d[5..7] == m;
    assert d[8..10] == e;
  }

  lemma HoraLegible(f: FechaHora)
    requires FechaValida(f)
    ensures var h := HoraTexto(f);
            |h| == 5 && h[2] == ':'
            && Lee(h[..2], f.hora) && Lee(h[3..], f.minuto)
  {
    CampoLegible(f.hora, 2);
    CampoLegible(f.minuto, 2);
    Partes(CerosIzquierda(f.hora, 2), ':', CerosIzquierda(f.minuto, 2));
  }

  /** The pieces of `a + [c] + b`. */
  lemma Partes(a: string, c: char, b: string)
    ensures var s := a + [c] + b;
            |s| == |a| + 1 + |b| && s[..|a|] == a && s[|a|] == c && s[|a| + 1..] == b
  {
  }

  /** `s` is a non-empty run of decimal digits whose value is `n`. */
  predicate Lee(s: string, n: nat)
  {
    |s| >= 1 && SoloDigitos(s) && ValorDigitos(s) == n
  }

  /** A zero-padded field of width 2 or 4 has exactly that width and reads back as its value. */
  lemma CampoLegible(n: nat, ancho: nat)
    requires (ancho == 2 && n < 100) || (ancho == 4 && n < 10000)
    ensures |CerosIzquierda(n, ancho)| == ancho && Lee(CerosIzquierda(n, ancho), n)
  {
    assert Pot10(2) == 100 && Pot10(4) == 10000 by {
      assert Pot10(1) == 10 && Pot10(3) == 1000;
    }
    CerosIzquierdaExacto(n, ancho);
  }

  /** A `ProcesoClasificacion` row. */
  datatype Proceso = Proceso(pk: int, fechaInicio: FechaHora, estado: EstadoProceso, descripcion: string)

  /** `ProcesoClasificacion.__str__`. */
  function ProcesoTexto(p: Proceso): (s: string)
  {
    "Proceso #" + IntATexto(p.pk) + " - " + FechaTexto(p.fechaInicio) + " - " + CodigoEstado(p.estado)
  }

  /** The text form starts with the number and ends with the stored state. */
  lemma ProcesoTextoPartes(p: Proceso)
    ensures var s := ProcesoTexto(p);
            var c := CodigoEstado(p.estado);
            EmpiezaCon(s, "Proceso #" + IntATexto(p.pk) + " - ")
            && |c| < |s| && s[|s| - |c|..] == c && s[|s| - |c| - 3..|s| - |c|] == " - "
  {
    var c := CodigoEstado(p.estado);
    var cab := "Proceso #" + IntATexto(p.pk) + " - ";
    var medio := cab + FechaTexto(p.fechaInicio);
    var s := medio + " - " + c;
    assert ProcesoTexto(p) == s;
    assert s[..|cab|] == medio[..|cab|] == cab;
    assert s[|s| - |c|..] == c;
    assert s[|s| - |c| - 3..|s| - |c|] == (medio + " - ")[|medio|..] == " - ";
  }

  // ------------------------------------------------ ArticuloClasificacionFinal

  const ACCION_PENDIENTE := "PENDIENTE"
  const ACCION_ACTUALIZADO := "ACTUALIZADO"
  const ACCION_ERROR := "ERROR"
  /** Written by the ICG write-back for validated articles, but not one of the field's choices. */
  const ACCION_VALIDADO := "VALIDADO"

  /** The declared choices of `estado_accion`. */
  predicate EsOpcionAccion(s: string)
  {
    s == ACCION_PENDIENTE || s == ACCION_ACTUALIZADO || s == ACCION_ERROR
  }

  /**
   * An `ArticuloClasificacionFinal` row: `resultadoValidacion` is a required
   * boolean, `estadoAccion` the stored text (default `PENDIENTE`). The section is
   * copied from the processed row, which may lack one.
   */
  datatype ArticuloFinal = ArticuloFinal(
    seccion: Option<string>,
    codigo: string,
    almacen: Option<string>,
    descripcion: Option<string>,
    referencia: Option<string>,
    marca: Option<string>,
    clasificacionActual: Option<string>,
    nuevaClasificacion: Option<string>,
    resultadoValidacion: bool,
    estadoAccion: string,
    mensajeAccion: Option<string>)

  /** A new final row: pending, no message. */
  function NuevoFinal(seccion: Option<string>, codigo: string, almacen: Option<string>, descripcion: Option<string>,
                      referencia: Option<string>, marca: Option<string>, actual: Option<string>,
                      nueva: Option<string>, validacion: bool): (a: ArticuloFinal)
    ensures a.estadoAccion == ACCION_PENDIENTE && EsOpcionAccion(a.estadoAccion) && a.mensajeAccion.None?
    ensures a.resultadoValidacion == validacion && a.codigo == codigo && a.almacen == almacen
  {
    ArticuloFinal(seccion, codigo, almacen, descripcion, referencia, marca, actual, nueva, validacion,
                  ACCION_PENDIENTE, None)
  }
}

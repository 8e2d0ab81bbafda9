/**
 * The admin screens that move a classification process through its states
 * (`Compras/admin/procesos.py`, `Compras/admin/clasificaciones.py` and their
 * older copies at the top of `Compras/admin.py`): the wizard button of the
 * process list, `procesar_view`, the redirects between the processed and
 * final lists, their permissions, the generation of the final rows and the
 * Excel export of the processed rows.
 *
 * A request is reduced to what these decisions read: whether the user has a
 * supplier profile, and what the `proceso__id__exact` look-up found.
 */
module ProcesosAdmin {
  import opened Resultados
  import opened Textos
  import opened ModelosCompras
  import opened Clasificacion
  import opened ClasificacionProceso
  import Exports

  // ------------------------------------------------------------ Pages

  /** The pages these views link or redirect to. */
  datatype Pagina =
    | VistaProcesar(pk: int)
    | ListaProcesados(pk: int)
    | ListaFinales(pk: int)
    | ListaProcesos
    | Inicio
    | SinDestino

  // ------------------------------------------------------- Wizard button

  /** A link button, or the grey text shown for a finished process. */
  datatype Boton = Enlace(destino: Pagina, texto: string) | Rotulo(texto: string)

  /** Python's `str.capitalize()` on ASCII text. */
  function Capitalizar(s: string): (r: string)
    ensures |r| == |s|
    ensures s != [] ==> r[0] == MayusculaChar(s[0]) && r[1..] == Lower(s[1..])
  {
    if s == [] then [] else [MayusculaChar(s[0])] + Lower(s[1..])
  }

  /** `lanzar_wizard`: one button per stored state; an unknown one shows its own name and goes nowhere. */
  function LanzarWizard(estado: string, pk: int): (b: Boton)
  {
    if estado == "extraccion" then Enlace(VistaProcesar(pk), "Procesar Extracción")
    else if estado == "procesado" then Enlace(ListaProcesados(pk), "Ir a Procesado")
    else if estado == "confirmado" then Enlace(ListaFinales(pk), "Ir a Confirmado")
    else if estado == "actualizado" then Rotulo("Finalizado")
    else Enlace(SinDestino, Capitalizar(estado))
  }

  /**
   * Only a finished process gets plain text; every other button is a link,
   * and a state outside the choices (or `edicion`, which has no step of its
   * own) links nowhere under its capitalised name.
   */
  lemma WizardPorEstado(estado: string, pk: int)
    ensures LanzarWizard(estado, pk).Rotulo? <==> estado == "actualizado"
    ensures LanzarWizard(estado, pk).Enlace? && LanzarWizard(estado, pk).destino == SinDestino
            <==> EstadoDeCodigo(estado).None? || estado == "edicion"
    ensures EstadoDeCodigo(estado).None? ==> LanzarWizard(estado, pk) == Enlace(SinDestino, Capitalizar(estado))
  {
  }

  // ------------------------------------------------------- procesar_view

  /** Where `procesar_view` sends a process in a given state. */
  function Redireccion(e: EstadoProceso, pk: int): (p: Pagina)
  {
    match e
    case Procesado => ListaProcesados(pk)
    case Confirmado => ListaFinales(pk)
    case Actualizado => ListaFinales(pk)
    case _ => ListaProcesos
  }

  /** The link of the wizard for a state with a step of its own is the page `procesar_view` redirects to. */
  lemma WizardComoVista(e: EstadoProceso, pk: int)
    requires e == Procesado || e == Confirmado
    ensures LanzarWizard(CodigoEstado(e), pk) == Enlace(Redireccion(e, pk), LanzarWizard(CodigoEstado(e), pk).texto)
  {
  }

  datatype Vista = Vista(proceso: Proceso, guardados: map<Clave, Guardado>, pagina: Pagina)

  /**
   * `procesar_view`. A supplier is sent to the admin index when the guard is
   * present (`conGuarda`: the copy in `Compras/admin/procesos.py`; the one in
   * `Compras/admin.py` has none). A process in extraction is processed and
   * becomes `procesado`; the error of the processing propagates. Then the
   * state decides the redirect.
   */
  function ProcesarVista(conGuarda: bool, esProveedor: bool, p: Proceso, temps: seq<Temporal>,
                         tabla: seq<Regla>, previos: map<Clave, Guardado>): (r: Result<Vista>)
  {
    if conGuarda && esProveedor then Ok(Vista(p, previos, Inicio))
    else if p.estado == Extraccion then
      match Procesar(temps, p, tabla, previos)
      case Err(e) => Err(e)
      case Ok(s) => Ok(Vista(s.proceso.(estado := Procesado), s.guardados, Redireccion(Procesado, p.pk)))
    else Ok(Vista(p, previos, Redireccion(p.estado, p.pk)))
  }

  /**
   * Only extraction moves: it becomes `procesado` and lands on the processed
   * list; every other state is left as it is, with its stored rows.
   */
  lemma ProcesarVistaTransicion(conGuarda: bool, esProveedor: bool, p: Proceso, temps: seq<Temporal>,
                                tabla: seq<Regla>, previos: map<Clave, Guardado>)
    ensures var r := ProcesarVista(conGuarda, esProveedor, p, temps, tabla, previos);
            r.Ok? ==> r.value.proceso.pk == p.pk
                      && (p.estado != Extraccion || (conGuarda && esProveedor) ==> r.value.proceso == p && r.value.guardados == previos)
    ensures var r := ProcesarVista(conGuarda, esProveedor, p, temps, tabla, previos);
            r.Ok? && p.estado == Extraccion && !(conGuarda && esProveedor) ==>
              r.value.proceso.estado == Procesado && r.value.pagina == ListaProcesados(p.pk)
    ensures var r := ProcesarVista(conGuarda, esProveedor, p, temps, tabla, previos);
            r.Err? ==> p.estado == Extraccion && !(conGuarda && esProveedor)
  {
  }

  /** The page reached after the view is the one the wizard shows for the new state, when it has one. */
  lemma ProcesarVistaComoWizard(p: Proceso, temps: seq<Temporal>, tabla: seq<Regla>, previos: map<Clave, Guardado>)
    requires p.estado == Extraccion || p.estado == Procesado || p.estado == Confirmado
    requires ProcesarVista(false, false, p, temps, tabla, previos).Ok?
    ensures var v := ProcesarVista(false, false, p, temps, tabla, previos).value;
            LanzarWizard(CodigoEstado(v.proceso.estado), p.pk).Enlace?
            && LanzarWizard(CodigoEstado(v.proceso.estado), p.pk).destino == v.pagina
  {
  }

  // ------------------------------------------------------- Permissions

  /** Process list (`Compras/admin/procesos.py`): suppliers see no module, no view and no rows. */
  function PermisoModuloProcesos(esProveedor: bool, base: bool): (r: bool)
    ensures r <==> !esProveedor && base
  {
    if esProveedor then false else base
  }

  function ProcesosVisibles(esProveedor: bool, todos: seq<Proceso>): (r: seq<Proceso>)
    ensures esProveedor ==> r == []
    ensures !esProveedor ==> r == todos
  {
    if esProveedor then [] else todos
  }

  /** Adding a process by hand is never allowed. */
  const PERMISO_AGREGAR_PROCESO := false

  /** A confirmed process cannot be changed; the list itself (no object) can. */
  function PermisoCambiarProceso(obj: Option<Proceso>): (r: bool)
    ensures !r <==> obj.Some? && obj.value.estado == Confirmado
  {
    match obj
    case None => true
    case Some(p) => p.estado != Confirmado
  }

  /** What the `proceso__id__exact` parameter of a list led to. */
  datatype Busqueda = SinId | NoExiste | Existe(proceso: Proceso)

  /** Processed rows are editable only while their process is `procesado`; an unknown process blocks. */
  function PermisoCambiarProcesados(b: Busqueda, base: bool): (r: bool)
    ensures r ==> base
    ensures b.NoExiste? ==> !r
    ensures b.Existe? ==> (r <==> b.proceso.estado == Procesado && base)
  {
    match b
    case SinId => base
    case NoExiste => false
    case Existe(p) => if p.estado != Procesado then false else base
  }

  // ------------------------------------------------------- List redirects

  /** The final list sends processed and extracted processes back; `None` is staying on the list. */
  function RedireccionFinales(b: Busqueda): (r: Option<Pagina>)
  {
    match b
    case Existe(p) =>
      if p.estado == Procesado then Some(ListaProcesados(p.pk))
      else if p.estado == Extraccion then Some(ListaProcesos)
      else None
    case _ => None
  }

  /** The processed list sends confirmed and updated processes on to the final list. */
  function RedireccionProcesados(b: Busqueda): (r: Option<Pagina>)
  {
    match b
    case Existe(p) =>
      if p.estado == Confirmado || p.estado == Actualizado then Some(ListaFinales(p.pk)) else None
    case _ => None
  }

  /**
   * The two lists never send a process back and forth: whichever list it is
   * redirected to keeps it, so one redirect is all it takes.
   */
  lemma RedireccionesSinCiclo(b: Busqueda)
    ensures b.Existe? && RedireccionFinales(b) == Some(ListaProcesados(b.proceso.pk)) ==>
              RedireccionProcesados(b).None? && PermisoCambiarProcesados(b, true)
    ensures b.Existe? && RedireccionProcesados(b) == Some(ListaFinales(b.proceso.pk)) ==> RedireccionFinales(b).None?
    ensures RedireccionFinales(b).None? || RedireccionProcesados(b).None?
    ensures RedireccionFinales(b).None? && RedireccionProcesados(b).None? ==>
              b.SinId? || b.NoExiste? || b.proceso.estado == Edicion
  {
  }

  // ------------------------------------------------------- Final rows

  /**
   * `resultado_validacion` of a final row: a new article (its code among the
   * temporary rows marked `NUEVO`) whose current class is not R or T counts
   * as validated; any other is validated when its class did not change.
   */
  function Validacion(art: ArticuloProcesado, nuevos: set<string>): (v: bool)
  {
    if art.codigo in nuevos && art.clasificacionActual !in {"R", "T"} then true
    else art.clasificacionActual == art.nuevaClasificacion
  }

  lemma ValidacionSegunNuevo(art: ArticuloProcesado, nuevos: set<string>)
    ensures Validacion(art, nuevos) <==>
              (art.codigo in nuevos && art.clasificacionActual != "R" && art.clasificacionActual != "T")
              || art.clasificacionActual == art.nuevaClasificacion
    ensures art.codigo !in nuevos ==> (Validacion(art, nuevos) <==> art.clasificacionActual == art.nuevaClasificacion)
  {
  }

  /** The final row of a processed one, pending. */
  function FinalDe(art: ArticuloProcesado, nuevos: set<string>): (f: ArticuloFinal)
    ensures f.estadoAccion == ACCION_PENDIENTE && f.mensajeAccion.None?
    ensures f.codigo == art.codigo && f.almacen == Some(art.almacen) && f.seccion == art.seccion
    ensures f.clasificacionActual == Some(art.clasificacionActual) && f.nuevaClasificacion == Some(art.nuevaClasificacion)
    ensures f.resultadoValidacion == Validacion(art, nuevos)
  {
    NuevoFinal(art.seccion, art.codigo, Some(art.almacen), Some(art.descripcion), art.referencia, art.marca,
               Some(art.clasificacionActual), Some(art.nuevaClasificacion), Validacion(art, nuevos))
  }

  function Finales(arts: seq<ArticuloProcesado>, nuevos: set<string>): (r: seq<ArticuloFinal>)
    ensures |r| == |arts|
  {
    if arts == [] then [] else Finales(arts[..|arts| - 1], nuevos) + [FinalDe(arts[|arts| - 1], nuevos)]
  }

  lemma {:induction false} FinalesEn(arts: seq<ArticuloProcesado>, nuevos: set<string>, i: nat)
    requires i < |arts|
    ensures Finales(arts, nuevos)[i] == FinalDe(arts[i], nuevos)
  {
    if i < |arts| - 1 {
      FinalesEn(arts[..|arts| - 1], nuevos, i);
    }
  }

  /** The outcome of `generar_clasificacion_final`. */
  datatype Generacion =
    | SinProceso                 // no `proceso__id__exact`
    | NoEncontrado               // 404
    | NoProcesado                // refused: the process is not `procesado`
    | Generado(creados: seq<ArticuloFinal>, proceso: Proceso)

  /**
   * `generar_clasificacion_final`: from `procesado` only; when final rows
   * already exist none are created, but the process is confirmed all the same.
   * `nuevos` holds the codes of new articles (empty for the copy in
   * `Compras/admin.py`, which has no such rule).
   */
  function GenerarFinales(b: Busqueda, procesados: seq<ArticuloProcesado>, existenFinales: bool,
                          nuevos: set<string>): (g: Generacion)
  {
    match b
    case SinId => SinProceso
    case NoExiste => NoEncontrado
    case Existe(p) =>
      if p.estado != Procesado then NoProcesado
      else Generado(if existenFinales then [] else Finales(procesados, nuevos), p.(estado := Confirmado))
  }

  /** The loop that builds `creados`. */
  method GenerarClasificacionFinal(b: Busqueda, procesados: seq<ArticuloProcesado>, existenFinales: bool,
                                   nuevos: set<string>) returns (g: Generacion)
    ensures g == GenerarFinales(b, procesados, existenFinales, nuevos)
  {
    if b.SinId? {
      return SinProceso;
    }
    if b.NoExiste? {
      return NoEncontrado;
    }
    var proceso := b.proceso;
    if proceso.estado != Procesado {
      return NoProcesado;
    }
    var creados: seq<ArticuloFinal> := [];
    if !existenFinales {
      var k := 0;
      while k < |procesados|
        invariant 0 <= k <= |procesados|
        invariant creados == Finales(procesados[..k], nuevos)
      {
        creados := creados + [FinalDe(procesados[k], nuevos)];
        assert procesados[..k + 1][..k] == procesados[..k];
        k := k + 1;
      }
      assert procesados[..k] == procesados;
    }
    proceso := proceso.(estado := Confirmado);
    g := Generado(creados, proceso);
  }

  /**
   * Generation happens only from `procesado` and moves the process to
   * `confirmado`; each processed row gives exactly one pending final row,
   * unless final rows existed, in which case none is created.
   */
  lemma GeneracionCompleta(b: Busqueda, procesados: seq<ArticuloProcesado>, existenFinales: bool,
                           nuevos: set<string>, i: nat)
    requires GenerarFinales(b, procesados, existenFinales, nuevos).Generado?
    requires !existenFinales && i < |procesados|
    ensures var g := GenerarFinales(b, procesados, existenFinales, nuevos);
            b.Existe? && b.proceso.estado == Procesado && g.proceso == b.proceso.(estado := Confirmado)
            && |g.creados| == |procesados|
            && g.creados[i].estadoAccion == ACCION_PENDIENTE
            && g.creados[i].codigo == procesados[i].codigo
            && g.creados[i].almacen == Some(procesados[i].almacen)
            && g.creados[i].resultadoValidacion == Validacion(procesados[i], nuevos)
  {
    FinalesEn(procesados, nuevos, i);
  }

  lemma GeneracionSinDuplicados(b: Busqueda, procesados: seq<ArticuloProcesado>, nuevos: set<string>)
    requires GenerarFinales(b, procesados, true, nuevos).Generado?
    ensures GenerarFinales(b, procesados, true, nuevos).creados == []
    ensures GenerarFinales(b, procesados, true, nuevos).proceso.estado == Confirmado
  {
  }

  /** Without new codes, the rule of `Compras/admin/clasificaciones.py` is that of `Compras/admin.py`. */
  lemma ValidacionSinNuevos(art: ArticuloProcesado)
    ensures Validacion(art, {}) <==> art.clasificacionActual == art.nuevaClasificacion
  {
  }

  // ------------------------------------------------------- ICG write-back queue

  /** What the "update in ICG" button of the final list does. */
  datatype Encolado = FaltaId | SinConfirmar | Encolada(pk: int) | FalloAlEncolar

  /**
   * `actualizar_clasificaciones_en_icg` is a plain function, not a registered
   * Celery task, so the `.delay` the button calls does not exist and the view
   * reports the exception instead.
   */
  const TAREA_ICG_REGISTRADA := false

  /**
   * Only a confirmed process is looked up; it is then queued by its primary
   * key when the Celery task is registered (`registrada`), and the attempt fails
   * when it is not.
   */
  function EncolarActualizacion(b: Busqueda, registrada: bool): (r: Encolado)
    ensures r.Encolada? || r.FalloAlEncolar? <==> b.Existe? && b.proceso.estado == Confirmado
    ensures r.Encolada? <==> registrada && b.Existe? && b.proceso.estado == Confirmado
    ensures r.Encolada? ==> r.pk == b.proceso.pk
  {
    match b
    case SinId => FaltaId
    case NoExiste => SinConfirmar
    case Existe(p) =>
      if p.estado != Confirmado then SinConfirmar
      else if registrada then Encolada(p.pk)
      else FalloAlEncolar
  }

  /** With the Celery task as the repository declares it, nothing is ever queued. */
  lemma NadaSeEncola(b: Busqueda)
    ensures !EncolarActualizacion(b, TAREA_ICG_REGISTRADA).Encolada?
    ensures b.Existe? && b.proceso.estado == Confirmado ==> EncolarActualizacion(b, TAREA_ICG_REGISTRADA) == FalloAlEncolar
  {
  }

  // ------------------------------------------------------- Excel export

  /** A cell of the sheet: `openpyxl` writes `None` as an empty cell. */
  datatype Valor = VTexto(s: string) | VNumero(x: real) | VEntero(i: int) | VVacio

  const CABECERAS_PROCESADO: seq<string> := [
    "Sección", "Código", "Descripción", "Referencia", "Marca", "Clasificación actual",
    "Suma importe", "Suma unidades", "Porcentaje acumulado", "Nueva clasificación", "Almacén"]

  function TextoOpcional(o: Option<string>): Valor
  {
    match o
    case None => VVacio
    case Some(s) => VTexto(s)
  }

  function EnteroOpcional(o: Option<int>): Valor
  {
    match o
    case None => VVacio
    case Some(i) => VEntero(i)
  }

  /** The row of one processed article, in the order of the header. */
  function FilaProcesado(a: ArticuloProcesado): (f: seq<Valor>)
  {
    [TextoOpcional(a.seccion), VTexto(a.codigo), VTexto(a.descripcion), TextoOpcional(a.referencia),
     TextoOpcional(a.marca), VTexto(a.clasificacionActual), VNumero(a.sumaImporte),
     EnteroOpcional(a.sumaUnidades), VNumero(a.porcentajeAcumulado), VTexto(a.nuevaClasificacion),
     VTexto(a.almacen)]
  }

  /** The value each header names, looked up by name. */
  function ValorColumna(nombre: string, a: ArticuloProcesado): Valor
  {
    if nombre == "Sección" then TextoOpcional(a.seccion)
    else if nombre == "Código" then VTexto(a.codigo)
    else if nombre == "Descripción" then VTexto(a.descripcion)
    else if nombre == "Referencia" then TextoOpcional(a.referencia)
    else if nombre == "Marca" then TextoOpcional(a.marca)
    else if nombre == "Clasificación actual" then VTexto(a.clasificacionActual)
    else if nombre == "Suma importe" then VNumero(a.sumaImporte)
    else if nombre == "Suma unidades" then EnteroOpcional(a.sumaUnidades)
    else if nombre == "Porcentaje acumulado" then VNumero(a.porcentajeAcumulado)
    else if nombre == "Nueva clasificación" then VTexto(a.nuevaClasificacion)
    else if nombre == "Almacén" then VTexto(a.almacen)
    else VVacio
  }

  /** Eleven headers, eleven cells, and each cell sits under the header that names it. */
  lemma ColumnasAlineadas(a: ArticuloProcesado, i: nat)
    requires i < |CABECERAS_PROCESADO|
    ensures |FilaProcesado(a)| == |CABECERAS_PROCESADO| == 11
    ensures FilaProcesado(a)[i] == ValorColumna(CABECERAS_PROCESADO[i], a)
  {
  }

  function FilasHoja(qs: seq<ArticuloProcesado>): (r: seq<seq<Valor>>)
    ensures |r| == |qs|
  {
    if qs == [] then [] else FilasHoja(qs[..|qs| - 1]) + [FilaProcesado(qs[|qs| - 1])]
  }

  function CabeceraHoja(): seq<Valor>
  {
    seq(|CABECERAS_PROCESADO|, i requires 0 <= i < |CABECERAS_PROCESADO| => VTexto(CABECERAS_PROCESADO[i]))
  }

  /** A cell `ws.append` accepts: a text may hold no control character `openpyxl` refuses in the part it keeps. */
  predicate Admitida(v: Valor)
  {
    !v.VTexto? || Exports.TextoAdmitido(v.s)
  }

  predicate FilaAdmitida(f: seq<Valor>)
  {
    forall j :: 0 <= j < |f| ==> Admitida(f[j])
  }

  /** The value a cell stores: a text cut to its first 32767 characters, anything else kept. */
  function Almacenada(v: Valor): (r: Valor)
    ensures v.VTexto? ==> r == VTexto(Exports.Recortado(v.s))
    ensures !v.VTexto? ==> r == v
  {
    if v.VTexto? then VTexto(Exports.Recortado(v.s)) else v
  }

  /** A row as the sheet stores it. */
  function FilaAlmacenada(f: seq<Valor>): (r: seq<Valor>)
    ensures |r| == |f| && forall j :: 0 <= j < |f| ==> r[j] == Almacenada(f[j])
  {
    seq(|f|, j requires 0 <= j < |f| => Almacenada(f[j]))
  }

  /** The rows as the sheet stores them. */
  function Almacenadas(fs: seq<seq<Valor>>): (r: seq<seq<Valor>>)
    ensures |r| == |fs| && forall i :: 0 <= i < |fs| ==> r[i] == FilaAlmacenada(fs[i])
  {
    if fs == [] then [] else Almacenadas(fs[..|fs| - 1]) + [FilaAlmacenada(fs[|fs| - 1])]
  }

  lemma AlmacenadasPaso(qs: seq<ArticuloProcesado>, k: nat)
    requires k < |qs|
    ensures Almacenadas(FilasHoja(qs[..k + 1])) == Almacenadas(FilasHoja(qs[..k])) + [FilaAlmacenada(FilaProcesado(qs[k]))]
  {
    assert qs[..k + 1][..k] == qs[..k];
    var xs := FilasHoja(qs[..k + 1]);
    assert xs == FilasHoja(qs[..k]) + [FilaProcesado(qs[k])];
    assert xs[..|xs| - 1] == FilasHoja(qs[..k]);
  }

  /**
   * `exportar_excel`: the header, then one row per article of the list, in
   * its order, each text cut as the cells store it; `IllegalCharacterError`
   * when some article's row holds a refused control character.
   */
  method ExportarExcel(qs: seq<ArticuloProcesado>) returns (r: Result<seq<seq<Valor>>>)
    ensures r.Ok? <==> forall i :: 0 <= i < |qs| ==> FilaAdmitida(FilaProcesado(qs[i]))
    ensures r.Err? ==> r.error == Exports.ERROR_CARACTER
    ensures r.Ok? ==> |r.value| == |qs| + 1 && r.value[0] == CabeceraHoja()
                      && r.value[1..] == Almacenadas(FilasHoja(qs))
  {
    var hoja := [CabeceraHoja()];
    var k := 0;
    while k < |qs|
      invariant 0 <= k <= |qs|
      invariant forall i :: 0 <= i < k ==> FilaAdmitida(FilaProcesado(qs[i]))
      invariant |hoja| == k + 1 && hoja[0] == CabeceraHoja() && hoja[1..] == Almacenadas(FilasHoja(qs[..k]))
    {
      var fila := FilaProcesado(qs[k]);
      if !FilaAdmitida(fila) {
        return Err(Exports.ERROR_CARACTER);
      }
      AlmacenadasPaso(qs, k);
      hoja := hoja + [FilaAlmacenada(fila)];
      k := k + 1;
    }
    assert qs[..k] == qs;
    r := Ok(hoja);
  }

  lemma {:induction false} FilasHojaEn(qs: seq<ArticuloProcesado>, i: nat)
    requires i < |qs|
    ensures FilasHoja(qs)[i] == FilaProcesado(qs[i])
  {
    if i < |qs| - 1 {
      FilasHojaEn(qs[..|qs| - 1], i);
    }
  }
}

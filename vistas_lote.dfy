/**
 * The lot-level handlers and list rules of the suggestion-line admin, in both
 * copies: `Compras/admin.py` (`Anterior`) and the package module
 * `Compras/admin/sugeridos.py` (`Paquete`). They confirm a lot for a
 * supplier, mark it completed, send it to ICG, answer for a supplier, decide
 * the permissions, the order of the warehouse columns, whether the list's
 * inputs are read-only, and the shortened description.
 *
 * A handler reads the lot with `get_object_or_404`; a missing lot is the
 * `NoEncontrado` outcome. Each outcome carries the lot and lines as the
 * handler leaves them and the message it shows, with its level.
 */
module VistasLote {
  import opened Resultados
  import opened Textos
  import opened Lineas
  import Ordenacion
  import PedidosIcg
  import opened FormularioLineas

  /** `messages.SUCCESS`, `INFO`, `WARNING` and `ERROR`. */
  datatype Nivel = Exito | Informacion | Advertencia | Fallo

  datatype Mensaje = Mensaje(nivel: Nivel, texto: string)

  datatype Salida =
    | NoEncontrado
    | Salida(lote: SugeridoLote, lineas: seq<SugeridoLinea>, mensaje: Mensaje)

  // ------------------------------------------------------------ Permissions

  /**
   * `has_module_permission`: the older admin never shows the module; the
   * package one hides it from suppliers and otherwise defers to Django.
   */
  function PermisoModulo(v: Version, u: Usuario, base: bool): (r: bool)
  {
    match v
    case Anterior => false
    case Paquete => !EsProveedor(Paquete, u) && base
  }

  /** `has_add_permission` of the package admin; the older one does not override it. */
  function PermisoAlta(v: Version, u: Usuario, base: bool): (r: bool)
  {
    match v
    case Anterior => base
    case Paquete => !EsProveedor(Paquete, u) && base
  }

  /** A supplier never sees the package module nor adds lines there; an internal user gets what Django grants. */
  lemma PermisosPorRol(u: Usuario, base: bool)
    ensures EsProveedor(Paquete, u) ==> !PermisoModulo(Paquete, u, base) && !PermisoAlta(Paquete, u, base)
    ensures EsInterno(u) ==> PermisoModulo(Paquete, u, base) == base && PermisoAlta(Paquete, u, base) == base
    ensures !PermisoModulo(Anterior, u, base)
  {
  }

  // ------------------------------------------------------------ confirmar_lote_proveedor

  /** The lines `lote.lineas.filter(proveedor=perfil.proveedor)` selects; a profile without supplier selects NULL ones. */
  predicate DelProveedor(ln: SugeridoLinea, p: Perfil)
  {
    ln.proveedor == p.proveedor
  }

  /** The number of the supplier's lines. */
  function CuentaDelProveedor(lineas: seq<SugeridoLinea>, p: Perfil): nat
  {
    if lineas == [] then 0
    else CuentaDelProveedor(lineas[..|lineas| - 1], p) + (if DelProveedor(lineas[|lineas| - 1], p) then 1 else 0)
  }

  function ConInternoDelProveedor(ln: SugeridoLinea): SugeridoLinea
  {
    ln.(sugeridoInterno := Some(ln.nuevoSugeridoProv.GetOr(0.0)))
  }

  /** `update(sugerido_interno=Coalesce(F('nuevo_sugerido_prov'), 0))` on the supplier's lines. */
  function CopiarPropuesta(lineas: seq<SugeridoLinea>, p: Perfil): (r: seq<SugeridoLinea>)
    ensures |r| == |lineas|
  {
    seq(|lineas|, i requires 0 <= i < |lineas| =>
      if DelProveedor(lineas[i], p) then ConInternoDelProveedor(lineas[i]) else lineas[i])
  }

  predicate Cerrado(estado: string)
  {
    estado == CONFIRMADO || estado == COMPLETADO
  }

  /**
   * `confirmar_lote_proveedor`: only a supplier can confirm, a confirmed or
   * completed lot is left as it is, and so is a lot without lines of the
   * supplier. Otherwise the lot becomes CONFIRMADO; the package copy first
   * copies the supplier's proposal into the internal quantity of its lines
   * and reports how many there were.
   */
  function ConfirmarLoteProveedor(v: Version, lotes: map<int, SugeridoLote>, loteId: int, u: Usuario,
                                  lineas: seq<SugeridoLinea>): (r: Salida)
  {
    if loteId !in lotes then NoEncontrado
    else
      var lote := lotes[loteId];
      if u.perfil.None? then
        Salida(lote, lineas, Mensaje(Fallo, "Solo un usuario proveedor puede confirmar el sugerido."))
      else if Cerrado(lote.estado) then
        Salida(lote, lineas, Mensaje(Informacion, "El lote ya fue confirmado/completado."))
      else if CuentaDelProveedor(lineas, u.perfil.value) == 0 then
        Salida(lote, lineas, Mensaje(Advertencia, "No hay líneas de su proveedor en este lote."))
      else
        var confirmado := lote.(estado := CONFIRMADO);
        match v
        case Anterior =>
          Salida(confirmado, lineas, Mensaje(Exito, "Lote " + IntATexto(lote.id) + " confirmado correctamente."))
        case Paquete =>
          var n := CuentaDelProveedor(lineas, u.perfil.value);
          Salida(confirmado, CopiarPropuesta(lineas, u.perfil.value),
                 Mensaje(Exito, "Lote " + IntATexto(lote.id) + " confirmado correctamente. "
                                + NatATexto(n) + " línea(s) actualizada(s)."))
  }

  /** The count is zero exactly when the lot has no line of the supplier. */
  lemma {:induction false} CuentaDelProveedorCero(lineas: seq<SugeridoLinea>, p: Perfil)
    ensures CuentaDelProveedor(lineas, p) == 0 <==> forall i :: 0 <= i < |lineas| ==> !DelProveedor(lineas[i], p)
    ensures CuentaDelProveedor(lineas, p) <= |lineas|
    decreases |lineas|
  {
    if lineas != [] {
      var n := |lineas| - 1;
      CuentaDelProveedorCero(lineas[..n], p);
      assert forall i :: 0 <= i < n ==> lineas[..n][i] == lineas[i];
    }
  }

  /** A confirmation happens exactly for a supplier, on an open lot with lines of that supplier. */
  lemma ConfirmarCuando(v: Version, lotes: map<int, SugeridoLote>, loteId: int, u: Usuario, lineas: seq<SugeridoLinea>)
    ensures var r := ConfirmarLoteProveedor(v, lotes, loteId, u, lineas);
            r.Salida? && r.mensaje.nivel == Exito
            <==> loteId in lotes && u.perfil.Some? && !Cerrado(lotes[loteId].estado)
                 && exists i :: 0 <= i < |lineas| && DelProveedor(lineas[i], u.perfil.value)
  {
    if u.perfil.Some? {
      CuentaDelProveedorCero(lineas, u.perfil.value);
    }
  }

  /** Every refusal leaves the lot and its lines unchanged. */
  lemma ConfirmarRechazoSinCambios(v: Version, lotes: map<int, SugeridoLote>, loteId: int, u: Usuario, lineas: seq<SugeridoLinea>)
    requires loteId in lotes
    ensures var r := ConfirmarLoteProveedor(v, lotes, loteId, u, lineas);
            r.Salida? && (r.mensaje.nivel != Exito ==> r.lote == lotes[loteId] && r.lineas == lineas)
  {
  }

  /**
   * A confirmation leaves the lot CONFIRMADO. The package copy sets the
   * internal quantity of exactly the supplier's lines to their proposal, a
   * missing one counting as 0, and changes nothing else; the older copy
   * changes no line.
   */
  lemma ConfirmarEfecto(v: Version, lotes: map<int, SugeridoLote>, loteId: int, u: Usuario, lineas: seq<SugeridoLinea>, i: nat)
    requires i < |lineas|
    ensures var r := ConfirmarLoteProveedor(v, lotes, loteId, u, lineas);
            r.Salida? && r.mensaje.nivel == Exito ==>
              r.lote == lotes[loteId].(estado := CONFIRMADO)
              && r.lineas[i] == (if v == Paquete && DelProveedor(lineas[i], u.perfil.value)
                                 then lineas[i].(sugeridoInterno := Some(lineas[i].nuevoSugeridoProv.GetOr(0.0)))
                                 else lineas[i])
  {
  }

  /** Confirming again is refused with the lot as the first confirmation left it. */
  lemma ConfirmarDosVeces(v: Version, lotes: map<int, SugeridoLote>, loteId: int, u: Usuario, lineas: seq<SugeridoLinea>)
    requires loteId in lotes
    requires ConfirmarLoteProveedor(v, lotes, loteId, u, lineas).Salida?
    ensures var r := ConfirmarLoteProveedor(v, lotes, loteId, u, lineas);
            var r2 := ConfirmarLoteProveedor(v, lotes[loteId := r.lote], loteId, u, r.lineas);
            r.mensaje.nivel == Exito ==>
              r2 == Salida(r.lote, r.lineas, Mensaje(Informacion, "El lote ya fue confirmado/completado."))
  {
  }

  /** The package copy reports the number of lines it updated. */
  lemma ConfirmarCuenta(lotes: map<int, SugeridoLote>, loteId: int, u: Usuario, lineas: seq<SugeridoLinea>)
    ensures var r := ConfirmarLoteProveedor(Paquete, lotes, loteId, u, lineas);
            r.Salida? && r.mensaje.nivel == Exito ==>
              var n := CuentaDelProveedor(lineas, u.perfil.value);
              0 < n <= |lineas|
              && r.mensaje.texto == "Lote " + IntATexto(lotes[loteId].id) + " confirmado correctamente. "
                                    + NatATexto(n) + " línea(s) actualizada(s)."
  {
    if loteId in lotes && u.perfil.Some? {
      var p := u.perfil.value;
      CuentaDelProveedorCero(lineas, p);
      var lote := lotes[loteId];
      if !Cerrado(lote.estado) && CuentaDelProveedor(lineas, p) != 0 {
        assert ConfirmarLoteProveedor(Paquete, lotes, loteId, u, lineas).mensaje.texto
               == "Lote " + IntATexto(lote.id) + " confirmado correctamente. "
                  + NatATexto(CuentaDelProveedor(lineas, p)) + " línea(s) actualizada(s).";
      }
    }
  }

  // ------------------------------------------------------------ confirmar_pedido_icg

  /** Who may mark a lot completed: the older copy refuses any supplier profile, the package one wants the internal group. */
  predicate PuedeCompletar(v: Version, u: Usuario)
  {
    match v
    case Anterior => u.perfil.None?
    case Paquete => EsInterno(u)
  }

  /** `confirmar_pedido_icg`: an informative switch to COMPLETADO. */
  function ConfirmarPedidoIcg(v: Version, lotes: map<int, SugeridoLote>, loteId: int, u: Usuario,
                              lineas: seq<SugeridoLinea>): (r: Salida)
  {
    if loteId !in lotes then NoEncontrado
    else
      var lote := lotes[loteId];
      if !PuedeCompletar(v, u) then Salida(lote, lineas, Mensaje(Fallo, "Acción solo para usuarios internos."))
      else if lote.estado == COMPLETADO then Salida(lote, lineas, Mensaje(Informacion, "El lote ya está completado."))
      else
        Salida(lote.(estado := COMPLETADO), lineas,
               Mensaje(Exito, "Lote " + IntATexto(lote.id) + " marcado como COMPLETADO (informativo)."))
  }

  /**
   * An allowed user always leaves the lot COMPLETADO, and a second call
   * changes nothing; a refused one changes nothing. Lines are never touched.
   */
  lemma ConfirmarPedidoIcgEfecto(v: Version, lotes: map<int, SugeridoLote>, loteId: int, u: Usuario, lineas: seq<SugeridoLinea>)
    requires loteId in lotes
    ensures var r := ConfirmarPedidoIcg(v, lotes, loteId, u, lineas);
            r.Salida? && r.lineas == lineas
            && (PuedeCompletar(v, u) ==> r.lote.estado == COMPLETADO && r.lote == lotes[loteId].(estado := COMPLETADO))
            && (!PuedeCompletar(v, u) ==> r.lote == lotes[loteId] && r.mensaje.nivel == Fallo)
            && (lotes[loteId].estado == COMPLETADO ==> r.lote == lotes[loteId])
  {
  }

  /** The two copies disagree on users in the internal group who hold a supplier profile, and on users in neither. */
  lemma CompletarVersiones(u: Usuario)
    ensures PuedeCompletar(Anterior, u) != PuedeCompletar(Paquete, u)
            <==> (u.perfil.Some? && EsInterno(u)) || (u.perfil.None? && !EsInterno(u))
  {
  }

  // ------------------------------------------------------------ importar_a_icg (package copy)

  /** The lot's own series, when it has a non-empty one, else the service default. */
  function SerieElegida(propia: Option<string>, defecto: string): (r: string)
  {
    if propia.Some? && propia.value != "" then propia.value else defecto
  }

  /** `f"{numserie}-{numpedido}({cod_almacen})"`. */
  function ResumenPedido(p: PedidoCreado): string
  {
    p.numserie + "-" + IntATexto(p.numpedido) + "(" + p.codAlmacen + ")"
  }

  function Resumenes(ps: seq<PedidoCreado>): (r: seq<string>)
    ensures |r| == |ps|
  {
    seq(|ps|, i requires 0 <= i < |ps| => ResumenPedido(ps[i]))
  }

  /** The message for what the ICG service answered. */
  function MensajeImportacion(r: Result<PedidosIcg.Resultado>): (m: Mensaje)
  {
    if r.Err? then Mensaje(Fallo, "Error al generar pedido en ICG: " + r.error)
    else if r.value.pedidos == [] then Mensaje(Informacion, "No se generaron pedidos (sin líneas válidas).")
    else Mensaje(Exito, NatATexto(|r.value.pedidos|) + " pedido(s) en ICG generados: "
                        + Join(Resumenes(r.value.pedidos), ", ") + ".")
  }

  /** A failure, no orders and some orders are told apart by level. */
  lemma MensajeImportacionNivel(r: Result<PedidosIcg.Resultado>)
    ensures MensajeImportacion(r).nivel == Fallo <==> r.Err?
    ensures MensajeImportacion(r).nivel == Exito <==> r.Ok? && r.value.pedidos != []
  {
  }

  datatype Importacion =
    | ImportacionNoEncontrada
    | ImportacionRechazada(mensaje: Mensaje)
    | Importada(servicio: Result<PedidosIcg.Resultado>, mensaje: Mensaje)

  /**
   * `importar_a_icg` of the package copy: internal users only; the lot's own
   * series and sub-series replace the defaults when it has them, and the
   * outcome of the ICG service is reported.
   */
  method ImportarAIcg(lotes: map<int, SugeridoLote>, loteId: int, u: Usuario, lineas: seq<SugeridoLinea>,
                      existentes: seq<int>, numserie: Option<string>, subserie: Option<string>)
    returns (r: Importacion)
    ensures loteId !in lotes <==> r.ImportacionNoEncontrada?
    ensures loteId in lotes && !EsInterno(u) <==> r.ImportacionRechazada?
    ensures r.ImportacionRechazada? ==> r.mensaje == Mensaje(Fallo, "Acción solo para usuarios internos.")
    ensures r.Importada? ==>
              var lote := lotes[loteId];
              var serie := SerieElegida(numserie, PedidosIcg.DEFAULT_NUMSERIE);
              var sub := SerieElegida(subserie, PedidosIcg.DEFAULT_SUBSERIE_N);
              r.mensaje == MensajeImportacion(r.servicio)
              && (r.servicio.Err? <==> PedidosIcg.Validar(lote, lineas, PedidosIcg.PREFER_INTERNO, "up").Err?)
              && (r.servicio.Ok? ==>
                    r.servicio.value == PedidosIcg.Esperado(lote, lineas, PedidosIcg.MaxONada(existentes), serie, sub,
                                                            PedidosIcg.PREFER_INTERNO, "up"))
  {
    if loteId !in lotes {
      return ImportacionNoEncontrada;
    }
    if !EsInterno(u) {
      return ImportacionRechazada(Mensaje(Fallo, "Acción solo para usuarios internos."));
    }
    var serie := SerieElegida(numserie, PedidosIcg.DEFAULT_NUMSERIE);
    var sub := SerieElegida(subserie, PedidosIcg.DEFAULT_SUBSERIE_N);
    var servicio := PedidosIcg.CrearPedidoCompraDesdeLote(lotes[loteId], lineas, existentes, serie, sub,
                                                          PedidosIcg.PREFER_INTERNO, "up");
    r := Importada(servicio, MensajeImportacion(servicio));
  }

  // ------------------------------------------------------------ accion_proveedor_enviar_respuesta

  datatype Respuesta =
    | RespuestaRechazada(mensaje: Mensaje)
    | Respondida(lineas: seq<SugeridoLinea>, notificado: int, mensaje: Mensaje)

  function Respondidas(lineas: seq<SugeridoLinea>, p: Perfil): (r: seq<SugeridoLinea>)
    ensures |r| == |lineas|
  {
    seq(|lineas|, i requires 0 <= i < |lineas| =>
      if DelProveedor(lineas[i], p) then lineas[i].(estadoLinea := Some(RESPONDIDA)) else lineas[i])
  }

  /** The lot of the first selected line of the supplier. */
  function PrimerLote(lineas: seq<SugeridoLinea>, p: Perfil): (r: int)
    requires exists i :: 0 <= i < |lineas| && DelProveedor(lineas[i], p)
  {
    if DelProveedor(lineas[0], p) then lineas[0].lote
    else
      assert forall i :: 1 <= i < |lineas| ==> lineas[1..][i - 1] == lineas[i];
      PrimerLote(lineas[1..], p)
  }

  /**
   * `accion_proveedor_enviar_respuesta` of the package copy: a supplier marks
   * its selected lines RESPONDIDA and purchasing is told about the lot of the
   * first of them. `fallo` is the notification's error, if it raised; the
   * lines stay updated either way.
   */
  function EnviarRespuesta(u: Usuario, seleccion: seq<SugeridoLinea>, fallo: Option<string>): (r: Respuesta)
  {
    if u.perfil.None? then RespuestaRechazada(Mensaje(Fallo, "Acción solo para proveedores."))
    else
      var p := u.perfil.value;
      var n := CuentaDelProveedor(seleccion, p);
      if n == 0 then RespuestaRechazada(Mensaje(Advertencia, "No hay líneas válidas para su proveedor."))
      else
        CuentaDelProveedorCero(seleccion, p);
        var marcadas := Respondidas(seleccion, p);
        var lote := PrimerLote(seleccion, p);
        if fallo.Some? then
          Respondida(marcadas, lote, Mensaje(Advertencia, "Líneas actualizadas pero error en notificación: " + fallo.value))
        else
          Respondida(marcadas, lote, Mensaje(Exito, NatATexto(n) + " líneas marcadas como respondidas y notificación enviada."))
  }

  /** The first selected line of the supplier belongs to the lot that is notified. */
  lemma {:induction false} PrimerLoteEs(lineas: seq<SugeridoLinea>, p: Perfil)
    requires exists i :: 0 <= i < |lineas| && DelProveedor(lineas[i], p)
    ensures exists i :: 0 <= i < |lineas| && DelProveedor(lineas[i], p) && lineas[i].lote == PrimerLote(lineas, p)
                        && forall j :: 0 <= j < i ==> !DelProveedor(lineas[j], p)
    decreases |lineas|
  {
    if !DelProveedor(lineas[0], p) {
      var cola := lineas[1..];
      assert forall i :: 1 <= i < |lineas| ==> cola[i - 1] == lineas[i];
      PrimerLoteEs(cola, p);
      var k :| 0 <= k < |cola| && DelProveedor(cola[k], p) && cola[k].lote == PrimerLote(cola, p)
               && forall j :: 0 <= j < k ==> !DelProveedor(cola[j], p);
      assert DelProveedor(lineas[k + 1], p);
      assert forall j :: 1 <= j < k + 1 ==> !DelProveedor(lineas[j], p) by {
        forall j | 1 <= j < k + 1 ensures !DelProveedor(lineas[j], p) {
          assert cola[j - 1] == lineas[j];
        }
      }
    }
  }

  /**
   * Only the supplier's selected lines become RESPONDIDA, whether or not the
   * notification went out, and the count reported is their number.
   */
  lemma EnviarRespuestaEfecto(u: Usuario, seleccion: seq<SugeridoLinea>, fallo: Option<string>, i: nat)
    requires i < |seleccion|
    ensures var r := EnviarRespuesta(u, seleccion, fallo);
            (r.Respondida? <==> u.perfil.Some? && exists k :: 0 <= k < |seleccion| && DelProveedor(seleccion[k], u.perfil.value))
            && (r.Respondida? ==>
                  r.lineas[i] == (if DelProveedor(seleccion[i], u.perfil.value)
                                  then seleccion[i].(estadoLinea := Some(RESPONDIDA)) else seleccion[i])
                  && (r.mensaje.nivel == Exito <==> fallo.None?))
  {
    if u.perfil.Some? {
      CuentaDelProveedorCero(seleccion, u.perfil.value);
    }
  }

  // ------------------------------------------------------------ Warehouse columns

  const ORDEN_ALMACENES: seq<string> := ["MERCASUR CALDAS", "MERCASUR CENTRO", "MERCASUR CABECERA", "MERCASUR SOTOMAYOR"]

  /** `orden_almacenes.index(x) if x in orden_almacenes else 99`. */
  function RangoAlmacen(x: Option<string>): (r: nat)
  {
    if x == Some(ORDEN_ALMACENES[0]) then 0
    else if x == Some(ORDEN_ALMACENES[1]) then 1
    else if x == Some(ORDEN_ALMACENES[2]) then 2
    else if x == Some(ORDEN_ALMACENES[3]) then 3
    else 99
  }

  /** The rank is the position in the fixed list, and 99 for any other warehouse. */
  lemma RangoAlmacenPosicion(x: Option<string>)
    ensures RangoAlmacen(x) < |ORDEN_ALMACENES| <==> x.Some? && x.value in ORDEN_ALMACENES
    ensures RangoAlmacen(x) < |ORDEN_ALMACENES| ==> ORDEN_ALMACENES[RangoAlmacen(x)] == x.value
    ensures RangoAlmacen(x) >= |ORDEN_ALMACENES| ==> RangoAlmacen(x) == 99
  {
  }

  function MenorAlmacen(a: Option<string>, b: Option<string>): bool
  {
    RangoAlmacen(a) < RangoAlmacen(b)
  }

  predicate Desconocido(x: Option<string>)
  {
    RangoAlmacen(x) == 99
  }

  /** `sorted(almacenes_set, key=...)`; the set's iteration order is the input order. */
  function OrdenarAlmacenes(almacenes: seq<Option<string>>): (r: seq<Option<string>>)
  {
    Ordenacion.Ordenar(almacenes, MenorAlmacen)
  }

  /**
   * The columns are the same warehouses, ranked: the four known ones first in
   * their fixed order, then the others in the order the set yielded them.
   */
  lemma AlmacenesOrdenados(almacenes: seq<Option<string>>)
    ensures multiset(OrdenarAlmacenes(almacenes)) == multiset(almacenes)
    ensures var r := OrdenarAlmacenes(almacenes);
            forall i, j :: 0 <= i < j < |r| ==> RangoAlmacen(r[i]) <= RangoAlmacen(r[j])
    ensures Ordenacion.Filtrar(OrdenarAlmacenes(almacenes), Desconocido) == Ordenacion.Filtrar(almacenes, Desconocido)
  {
    assert Ordenacion.OrdenDebil(MenorAlmacen);
    Ordenacion.OrdenarOrdenada(almacenes, MenorAlmacen);
    Ordenacion.OrdenarEstable(almacenes, MenorAlmacen, Desconocido);
  }

  // ------------------------------------------------------------ Read-only list

  const GRUPO_VENDEDOR := "perfil_vendedor"

  /** What the list template receives about the lot being shown. */
  datatype Vista = Vista(loteId: Option<string>, loteEstado: Option<string>, inputsDisabled: bool, ocultarConfirmar: Option<bool>)

  /** The lot shown: the one asked for in the query string, else the only lot of the listed lines. */
  function LoteActual(pedido: Option<string>, lotesListados: seq<int>): (r: Option<string>)
  {
    if pedido.Some? && pedido.value != "" then pedido
    else if |lotesListados| == 1 then Some(IntATexto(lotesListados[0]))
    else pedido
  }

  /**
   * The changelist's lot rule: inputs are read-only on a COMPLETADO lot, and
   * for sellers also on a CONFIRMADO one; the supplier's confirm button is
   * hidden on either. A lot id that is not a number raises, as the lookup by
   * primary key does.
   */
  function VistaLote(pedido: Option<string>, lotesListados: seq<int>, estados: map<int, string>, u: Usuario): (r: Result<Vista>)
  {
    var id := LoteActual(pedido, lotesListados);
    if id.None? || id.value == "" then Ok(Vista(id, None, false, None))
    else
      var pk := ParseInt(id.value);
      if pk.None? then Err("ValueError")
      else if pk.value !in estados then Ok(Vista(id, None, false, Some(false)))
      else
        var e := estados[pk.value];
        var estado := Upper(e);
        var cerrado := estado == "CONFIRMADO" || estado == "COMPLETADO";
        Ok(Vista(id, Some(e), estado == "COMPLETADO" || (GRUPO_VENDEDOR in u.grupos && cerrado), Some(cerrado)))
  }

  /**
   * For a lot that exists: inputs are disabled exactly on a completed lot for
   * everyone but sellers, and exactly on a confirmed or completed lot for
   * sellers; disabled inputs always come with the button hidden.
   */
  lemma VistaLoteReglas(pedido: Option<string>, lotesListados: seq<int>, estados: map<int, string>, u: Usuario)
    ensures var r := VistaLote(pedido, lotesListados, estados, u);
            r.Ok? && r.value.loteEstado.Some? ==>
              var e := Upper(r.value.loteEstado.value);
              r.value.ocultarConfirmar == Some(e == "CONFIRMADO" || e == "COMPLETADO")
              && (GRUPO_VENDEDOR !in u.grupos ==> (r.value.inputsDisabled <==> e == "COMPLETADO"))
              && (GRUPO_VENDEDOR in u.grupos ==> (r.value.inputsDisabled <==> e == "CONFIRMADO" || e == "COMPLETADO"))
    ensures var r := VistaLote(pedido, lotesListados, estados, u);
            r.Ok? && r.value.inputsDisabled ==> r.value.ocultarConfirmar == Some(true)
  {
  }

  /** Without a lot, or with an unknown one, nothing is read-only. */
  lemma VistaSinLote(pedido: Option<string>, lotesListados: seq<int>, estados: map<int, string>, u: Usuario)
    ensures var r := VistaLote(pedido, lotesListados, estados, u);
            r.Ok? && r.value.loteEstado.None? ==> !r.value.inputsDisabled && r.value.ocultarConfirmar != Some(true)
  {
  }

  /** With no lot asked for and not exactly one listed, the view is the plain one. */
  lemma VistaSinPedido(pedido: Option<string>, lotesListados: seq<int>, estados: map<int, string>, u: Usuario)
    requires (pedido.None? || pedido == Some("")) && |lotesListados| != 1
    ensures VistaLote(pedido, lotesListados, estados, u) == Ok(Vista(pedido, None, false, None))
  {
  }

  /** The state is compared case-insensitively: a lower-case `completado` also locks the inputs. */
  lemma VistaMinusculas(estados: map<int, string>, u: Usuario)
    requires 7 in estados && estados[7] == "completado"
    ensures VistaLote(Some("7"), [], estados, u).Ok?
    ensures VistaLote(Some("7"), [], estados, u).value.inputsDisabled
  {
    assert Upper("completado") == "COMPLETADO";
    assert ParseInt("7") == Some(7) by {
      assert IntATexto(7) == "7";
      ParseIntATexto(7);
    }
  }

  // ------------------------------------------------------------ Short description

  /** `get_descripcion_corta`, identical in both copies. */
  function DescripcionCorta(descripcion: Option<string>): (r: string)
  {
    var txt := descripcion.GetOr("");
    if |txt| <= 50 then txt else txt[..47] + "…"
  }

  /** Short text is shown whole; longer text is cut to 47 characters and an ellipsis, 48 in all. */
  lemma DescripcionCortaForma(descripcion: Option<string>)
    ensures var txt := descripcion.GetOr("");
            var r := DescripcionCorta(descripcion);
            |r| <= 50
            && (|txt| <= 50 ==> r == txt)
            && (|txt| > 50 ==> |r| == 48 && r[..47] == txt[..47] && r[47] == '…')
  {
  }
}

/**
 * `actualizar_clasificaciones_en_icg` (`Compras/tasks.py`): the final rows of
 * a process are written back to ICG one by one, and each row records what
 * happened to it in `estado_accion`/`mensaje_accion`.
 *
 * The connection and the outcome of each UPDATE are inputs: `conexion`
 * says whether `conectar_sql_server` gave a connection, and an `Intento`
 * carries the text of the exception its UPDATE would raise, if any.
 */
module TareasIcg {
  import opened Resultados
  import opened Textos
  import opened ModelosCompras
  import Clasificacion

  const ERROR_CONEXION := "No fue posible conectar a ICG."
  const MENSAJE_ACTUALIZADO := "Clasificación actualizada correctamente"
  const MENSAJE_VALIDADO := "Clasificación validada, no se actualiza"
  const SEPARADOR_ERRORES := "<br>"

  /** One `UPDATE ARTICULOSCAMPOSLIBRES SET <campo> = ? WHERE CODARTICULO = ?` that took effect. */
  datatype Escritura = Escritura(campo: string, valor: Option<string>, codigo: string)

  /** A final row, with the exception text its UPDATE raises when it is executed. */
  datatype Intento = Intento(art: ArticuloFinal, falla: Option<string>)

  /** What one iteration of the loop does to one row. */
  datatype Paso = Paso(art: ArticuloFinal, escritura: Option<Escritura>, contado: bool, error: Option<string>)

  /** Python's `str()` of an optional warehouse name. */
  function TextoAlmacen(almacen: Option<string>): string
  {
    match almacen
    case None => "None"
    case Some(a) => a
  }

  function MensajeAlmacen(almacen: Option<string>): string
  {
    "Almacén no reconocido: " + TextoAlmacen(almacen)
  }

  /** The record of a row after the loop has dealt with it: only its action state and message change. */
  predicate SoloAccion(antes: ArticuloFinal, despues: ArticuloFinal)
  {
    despues == antes.(estadoAccion := despues.estadoAccion, mensajeAccion := despues.mensajeAccion)
  }

  /**
   * One iteration: an unknown warehouse is an error without a write; a row
   * that failed validation is written and becomes `ACTUALIZADO`, unless the
   * write raises; a validated row is not written and becomes `VALIDADO`.
   * Either it counts or it adds one error, never both.
   */
  function TratarArticulo(i: Intento): (p: Paso)
  {
    var art := i.art;
    match Clasificacion.CampoClasificacion(art.almacen)
    case None =>
      Paso(art.(estadoAccion := ACCION_ERROR, mensajeAccion := Some(MensajeAlmacen(art.almacen))),
           None, false, Some(art.codigo + ": Almacén no reconocido"))
    case Some(campo) =>
      if !art.resultadoValidacion then
        match i.falla
        case Some(e) =>
          Paso(art.(estadoAccion := ACCION_ERROR, mensajeAccion := Some(e)), None, false, Some(art.codigo + ": " + e))
        case None =>
          Paso(art.(estadoAccion := ACCION_ACTUALIZADO, mensajeAccion := Some(MENSAJE_ACTUALIZADO)),
               Some(Escritura(campo, art.nuevaClasificacion, art.codigo)), true, None)
      else
        Paso(art.(estadoAccion := ACCION_VALIDADO, mensajeAccion := Some(MENSAJE_VALIDADO)), None, true, None)
  }

  /** What one iteration means for its row. */
  lemma TratarArticuloSentido(i: Intento)
    ensures SoloAccion(i.art, TratarArticulo(i).art) && TratarArticulo(i).art.mensajeAccion.Some?
    ensures TratarArticulo(i).contado <==> TratarArticulo(i).error.None?
    ensures TratarArticulo(i).art.estadoAccion == ACCION_ERROR <==> TratarArticulo(i).error.Some?
    ensures TratarArticulo(i).error.Some? ==> EmpiezaCon(TratarArticulo(i).error.value, i.art.codigo + ": ")
    ensures Clasificacion.CampoClasificacion(i.art.almacen).None? ==>
              TratarArticulo(i).error.Some? && TratarArticulo(i).escritura.None?
    ensures TratarArticulo(i).escritura.Some? <==> TratarArticulo(i).art.estadoAccion == ACCION_ACTUALIZADO
    ensures TratarArticulo(i).escritura.Some? ==>
              !i.art.resultadoValidacion && i.falla.None?
              && Clasificacion.CampoClasificacion(i.art.almacen) == Some(TratarArticulo(i).escritura.value.campo)
              && TratarArticulo(i).escritura.value.valor == i.art.nuevaClasificacion
              && TratarArticulo(i).escritura.value.codigo == i.art.codigo
    ensures TratarArticulo(i).art.estadoAccion == ACCION_VALIDADO <==>
              i.art.resultadoValidacion && Clasificacion.CampoClasificacion(i.art.almacen).Some?
  {
  }

  /** The loop's state: the rows as saved, the writes made, `count` and `errores`. */
  datatype Pasada = Pasada(arts: seq<ArticuloFinal>, escrituras: seq<Escritura>, count: nat, errores: seq<string>)

  function OpcionALista<T>(o: Option<T>): seq<T>
  {
    match o
    case None => []
    case Some(x) => [x]
  }

  /** The loop over the rows in order: every row either counts or adds one error. */
  function Recorrer(ints: seq<Intento>): (r: Pasada)
    ensures |r.arts| == |ints|
    ensures r.count + |r.errores| == |ints|
    ensures |r.escrituras| <= r.count
  {
    if ints == [] then Pasada([], [], 0, [])
    else
      var r := Recorrer(ints[..|ints| - 1]);
      var p := TratarArticulo(ints[|ints| - 1]);
      Siguiente(r, p)
  }

  function Siguiente(r: Pasada, p: Paso): Pasada
  {
    Pasada(r.arts + [p.art], r.escrituras + OpcionALista(p.escritura),
           r.count + (if p.contado then 1 else 0), r.errores + OpcionALista(p.error))
  }

  lemma RecorrerPaso(ints: seq<Intento>, k: nat)
    requires k < |ints|
    ensures Recorrer(ints[..k + 1]) == Siguiente(Recorrer(ints[..k]), TratarArticulo(ints[k]))
  {
    assert ints[..k + 1][..k] == ints[..k];
  }

  /** The result: `(count, "<br>".join(errores))` and the saved rows and writes; no connection raises. */
  datatype Salida = Salida(articulos: seq<ArticuloFinal>, escrituras: seq<Escritura>, count: nat, errores: string)

  function ActualizarEnIcg(conexion: bool, ints: seq<Intento>): (r: Result<Salida>)
    ensures r.Err? <==> !conexion
    ensures r.Err? ==> r.error == ERROR_CONEXION
    ensures r.Ok? ==> |r.value.articulos| == |ints| && r.value.count <= |ints|
  {
    if !conexion then Err(ERROR_CONEXION)
    else
      var p := Recorrer(ints);
      Ok(Salida(p.arts, p.escrituras, p.count, Join(p.errores, SEPARADOR_ERRORES)))
  }

  /** The body of the loop for one row, with the program's branches. */
  method TratarUno(i: Intento) returns (p: Paso)
    ensures p == TratarArticulo(i)
  {
    var art := i.art;
    var campo := Clasificacion.CampoClasificacion(art.almacen);
    if campo.None? {
      p := Paso(art.(estadoAccion := ACCION_ERROR, mensajeAccion := Some(MensajeAlmacen(art.almacen))),
                None, false, Some(art.codigo + ": Almacén no reconocido"));
      return;
    }
    if !art.resultadoValidacion {
      if i.falla.Some? {
        var e := i.falla.value;
        p := Paso(art.(estadoAccion := ACCION_ERROR, mensajeAccion := Some(e)), None, false, Some(art.codigo + ": " + e));
      } else {
        var w := Escritura(campo.value, art.nuevaClasificacion, art.codigo);
        p := Paso(art.(estadoAccion := ACCION_ACTUALIZADO, mensajeAccion := Some(MENSAJE_ACTUALIZADO)), Some(w), true, None);
      }
    } else {
      p := Paso(art.(estadoAccion := ACCION_VALIDADO, mensajeAccion := Some(MENSAJE_VALIDADO)), None, true, None);
    }
  }

  /** The write-back loop. */
  method ActualizarClasificacionesEnIcg(conexion: bool, ints: seq<Intento>) returns (r: Result<Salida>)
    ensures r == ActualizarEnIcg(conexion, ints)
  {
    if !conexion {
      return Err(ERROR_CONEXION);
    }
    var arts: seq<ArticuloFinal> := [];
    var escrituras: seq<Escritura> := [];
    var count: nat := 0;
    var errores: seq<string> := [];
    var k := 0;
    while k < |ints|
      invariant 0 <= k <= |ints|
      invariant Pasada(arts, escrituras, count, errores) == Recorrer(ints[..k])
    {
      var p := TratarUno(ints[k]);
      arts := arts + [p.art];
      if p.escritura.Some? {
        escrituras := escrituras + [p.escritura.value];
      }
      if p.contado {
        count := count + 1;
      }
      if p.error.Some? {
        errores := errores + [p.error.value];
      }
      RecorrerPaso(ints, k);
      k := k + 1;
    }
    assert ints[..k] == ints;
    r := Ok(Salida(arts, escrituras, count, Join(errores, SEPARADOR_ERRORES)));
  }

  // ------------------------------------------------------------ Properties

  /** Row `i` of the result is row `i` of the input after its own iteration. */
  lemma {:induction false} RecorrerEn(ints: seq<Intento>, i: nat)
    requires i < |ints|
    ensures Recorrer(ints).arts[i] == TratarArticulo(ints[i]).art
  {
    var n := |ints| - 1;
    if i < n {
      RecorrerEn(ints[..n], i);
    }
  }

  /** The number of rows in a given action state. */
  function CuentaEstado(arts: seq<ArticuloFinal>, e: string): (n: nat)
    ensures n <= |arts|
  {
    if arts == [] then 0
    else CuentaEstado(arts[..|arts| - 1], e) + (if arts[|arts| - 1].estadoAccion == e then 1 else 0)
  }

  lemma CuentaEstadoUltimo(arts: seq<ArticuloFinal>, a: ArticuloFinal, e: string)
    ensures CuentaEstado(arts + [a], e) == CuentaEstado(arts, e) + (if a.estadoAccion == e then 1 else 0)
  {
    assert (arts + [a])[..|arts|] == arts;
  }

  /** An entry of `errores` per row left in `ERROR`; every other row counts. */
  lemma {:induction false} ErroresSonFallos(ints: seq<Intento>)
    ensures |Recorrer(ints).errores| == CuentaEstado(Recorrer(ints).arts, ACCION_ERROR)
    ensures Recorrer(ints).count == |ints| - CuentaEstado(Recorrer(ints).arts, ACCION_ERROR)
  {
    if ints != [] {
      var n := |ints| - 1;
      ErroresSonFallos(ints[..n]);
      TratarArticuloSentido(ints[n]);
      CuentaEstadoUltimo(Recorrer(ints[..n]).arts, TratarArticulo(ints[n]).art, ACCION_ERROR);
    }
  }

  /** The updated rows are exactly the ones written, so `count` also covers the validated ones. */
  lemma {:induction false} EscriturasSonActualizados(ints: seq<Intento>)
    ensures |Recorrer(ints).escrituras| == CuentaEstado(Recorrer(ints).arts, ACCION_ACTUALIZADO)
    ensures Recorrer(ints).count == CuentaEstado(Recorrer(ints).arts, ACCION_ACTUALIZADO)
                                    + CuentaEstado(Recorrer(ints).arts, ACCION_VALIDADO)
  {
    if ints != [] {
      var n := |ints| - 1;
      EscriturasSonActualizados(ints[..n]);
      var a := TratarArticulo(ints[n]).art;
      TratarArticuloSentido(ints[n]);
      CuentaEstadoUltimo(Recorrer(ints[..n]).arts, a, ACCION_ACTUALIZADO);
      CuentaEstadoUltimo(Recorrer(ints[..n]).arts, a, ACCION_VALIDADO);
    }
  }

  /** Every write comes from a row whose own iteration makes it. */
  lemma {:induction false} EscrituraTieneOrigen(ints: seq<Intento>, w: Escritura)
    requires w in Recorrer(ints).escrituras
    ensures exists i :: 0 <= i < |ints| && TratarArticulo(ints[i]).escritura == Some(w)
  {
    var n := |ints| - 1;
    var previo := ints[..n];
    if w in Recorrer(previo).escrituras {
      EscrituraTieneOrigen(previo, w);
      var i :| 0 <= i < n && TratarArticulo(previo[i]).escritura == Some(w);
      assert previo[i] == ints[i];
    } else {
      assert TratarArticulo(ints[n]).escritura == Some(w);
    }
  }

  /** The write of each row's iteration is made. */
  lemma {:induction false} OrigenEscrito(ints: seq<Intento>, i: nat, w: Escritura)
    requires i < |ints| && TratarArticulo(ints[i]).escritura == Some(w)
    ensures w in Recorrer(ints).escrituras
  {
    var n := |ints| - 1;
    if i < n {
      var previo := ints[..n];
      assert previo[i] == ints[i];
      OrigenEscrito(previo, i, w);
    }
  }

  /** A write is made exactly for a row whose own iteration writes it. */
  lemma EscrituraDe(ints: seq<Intento>, w: Escritura)
    ensures w in Recorrer(ints).escrituras <==>
            exists i :: 0 <= i < |ints| && TratarArticulo(ints[i]).escritura == Some(w)
  {
    if w in Recorrer(ints).escrituras {
      EscrituraTieneOrigen(ints, w);
    }
    if exists i :: 0 <= i < |ints| && TratarArticulo(ints[i]).escritura == Some(w) {
      var i :| 0 <= i < |ints| && TratarArticulo(ints[i]).escritura == Some(w);
      OrigenEscrito(ints, i, w);
    }
  }
}

/**
 * The signal receivers of `automatizaciones/signals.py`: saving a scheduled
 * mailing (`CorreoEnviado`) creates or brings up to date the periodic task
 * of the same name, and deleting it removes that task.
 *
 * The periodic tasks are a map from their unique name to their fields; a
 * crontab or interval schedule is its primary key. `falla` says that the
 * task lookup itself raises (a database error).
 */
module SenalesEnvios {
  import opened Resultados
  import opened Textos

  const TASK_NAME_PROCESAR_ENVIO := "tu_app.tasks.procesar_y_enviar_correo_task"
  const ACTIVO := "ACTIVO"
  const INACTIVO := "INACTIVO"
  const ERROR_CONFIG := "ERROR_CONFIG"
  const LARGO_ASUNTO := 50

  /** The fields of `CorreoEnviado` the receivers read or update. */
  datatype Envio = Envio(
    pk: int, crontab: Option<int>, intervalo: Option<int>, activo: bool,
    nombreTarea: Option<string>, asunto: string, periodicTask: Option<string>, estado: string)

  /** A `PeriodicTask`, without its name (the key of the map). */
  datatype Tarea = Tarea(task: string, enabled: bool, args: string, crontab: Option<int>,
                         interval: Option<int>, description: string)

  /** The fields an update can write, in the order the receiver compares them. */
  datatype Campo = CTask | CEnabled | CArgs | CCrontab | CInterval | CDescription

  /** A name that is set and not empty. */
  predicate NombreValido(n: Option<string>)
  {
    n.Some? && n.value != ""
  }

  /** The crontab if there is one, else the interval. */
  function Horario(e: Envio): (h: Option<int>)
    ensures h.Some? <==> e.crontab.Some? || e.intervalo.Some?
    ensures e.crontab.Some? ==> h == e.crontab
  {
    if e.crontab.Some? then e.crontab else e.intervalo
  }

  /** The periodic task runs only for an active mailing that has a schedule. */
  function Habilitada(e: Envio): (b: bool)
    ensures b <==> e.activo && (e.crontab.Some? || e.intervalo.Some?)
  {
    e.activo && Horario(e).Some?
  }

  /** `json.dumps([pk])`. */
  function Args(pk: int): string
  {
    "[" + IntATexto(pk) + "]"
  }

  /** `'Envío programado: ' + asunto[:50] + '...'`. */
  function Descripcion(asunto: string): (d: string)
    ensures |d| <= |"Envío programado: "| + LARGO_ASUNTO + 3
  {
    "Envío programado: " + Prefijo(asunto, LARGO_ASUNTO) + "..."
  }

  /** The periodic task as the mailing wants it. */
  function Deseada(e: Envio): Tarea
  {
    Tarea(TASK_NAME_PROCESAR_ENVIO, Habilitada(e), Args(e.pk), e.crontab, e.intervalo, Descripcion(e.asunto))
  }

  function Si(c: bool, x: Campo): seq<Campo>
  {
    if c then [x] else []
  }

  /** `updated_fields`: the fields where the stored task differs from the wanted one, in comparison order. */
  function Diferencias(t: Tarea, d: Tarea): (cs: seq<Campo>)
  {
    Si(t.task != d.task, CTask) + Si(t.enabled != d.enabled, CEnabled) + Si(t.args != d.args, CArgs)
    + Si(t.crontab != d.crontab, CCrontab) + Si(t.interval != d.interval, CInterval)
    + Si(t.description != d.description, CDescription)
  }

  /** A field is listed exactly when it differs. */
  lemma DiferenciasExactas(t: Tarea, d: Tarea)
    ensures (CTask in Diferencias(t, d) <==> t.task != d.task)
            && (CEnabled in Diferencias(t, d) <==> t.enabled != d.enabled)
            && (CArgs in Diferencias(t, d) <==> t.args != d.args)
            && (CCrontab in Diferencias(t, d) <==> t.crontab != d.crontab)
            && (CInterval in Diferencias(t, d) <==> t.interval != d.interval)
            && (CDescription in Diferencias(t, d) <==> t.description != d.description)
  {
    ListaSegunCondiciones(t.task != d.task, t.enabled != d.enabled, t.args != d.args,
                          t.crontab != d.crontab, t.interval != d.interval, t.description != d.description);
  }

  /** The field list built from six conditions names each field exactly when its condition holds. */
  lemma ListaSegunCondiciones(p1: bool, p2: bool, p3: bool, p4: bool, p5: bool, p6: bool)
    ensures var cs := Si(p1, CTask) + Si(p2, CEnabled) + Si(p3, CArgs) + Si(p4, CCrontab) + Si(p5, CInterval)
                      + Si(p6, CDescription);
            (CTask in cs <==> p1) && (CEnabled in cs <==> p2) && (CArgs in cs <==> p3)
            && (CCrontab in cs <==> p4) && (CInterval in cs <==> p5) && (CDescription in cs <==> p6)
  {
    var c1 := Si(p1, CTask);
    var c2 := c1 + Si(p2, CEnabled);
    var c3 := c2 + Si(p3, CArgs);
    var c4 := c3 + Si(p4, CCrontab);
    var c5 := c4 + Si(p5, CInterval);
    var c6 := c5 + Si(p6, CDescription);
    SiAnadido(c1, p2, CEnabled);
    SiAnadido(c2, p3, CArgs);
    SiAnadido(c3, p4, CCrontab);
    SiAnadido(c4, p5, CInterval);
    SiAnadido(c5, p6, CDescription);
  }

  /** Appending the entry of one comparison adds that field alone, and only when it differs. */
  lemma SiAnadido(cs: seq<Campo>, p: bool, k: Campo)
    ensures forall j :: j in cs + Si(p, k) <==> j in cs || (p && j == k)
  {
  }

  /** Nothing is listed exactly when the periodic task is already as wanted. */
  lemma DiferenciasVacia(t: Tarea, d: Tarea)
    ensures Diferencias(t, d) == [] <==> t == d
  {
    if Diferencias(t, d) == [] {
      assert |Diferencias(t, d)| == 0;
      assert t.task == d.task && t.enabled == d.enabled && t.args == d.args;
      assert t.crontab == d.crontab && t.interval == d.interval && t.description == d.description;
    }
  }

  /** The state of the mailing row the receiver aims at. */
  function EstadoNuevo(e: Envio): (s: string)
    ensures e.estado == ERROR_CONFIG ==> s == ERROR_CONFIG
    ensures e.estado != ERROR_CONFIG ==> (s == ACTIVO <==> Habilitada(e)) && (s == INACTIVO <==> !Habilitada(e))
  {
    var actual := if Habilitada(e) then ACTIVO else INACTIVO;
    if e.estado != actual && e.estado != ERROR_CONFIG then actual else e.estado
  }

  /** What the post-save receiver leaves behind: the periodic tasks, the mailing row, the fields written and whether a save happened. */
  datatype Efecto = Efecto(tareas: map<string, Tarea>, envio: Envio, campos: seq<Campo>, guardada: bool)

  /**
   * The post-save receiver. Without a name nothing happens. A failing
   * lookup changes nothing either: the error path's update filters on the
   * unsupported `estado__ne` lookup, raises, and that error is swallowed.
   */
  function AlGuardar(tareas: map<string, Tarea>, e: Envio, falla: bool): Efecto
  {
    if !NombreValido(e.nombreTarea) || falla then Efecto(tareas, e, [], false)
    else
      var n := e.nombreTarea.value;
      var d := Deseada(e);
      var cs := if n in tareas then Diferencias(tareas[n], d) else [];
      Efecto(tareas[n := d], e.(periodicTask := Some(n), estado := EstadoNuevo(e)), cs, cs != [])
  }

  /**
   * After a successful receiver the named task is exactly as the mailing
   * wants it and no other task changed; an existing task is saved only
   * with the fields that differed; the mailing points at the periodic task and its
   * state matches whether the periodic task is enabled, unless it is `ERROR_CONFIG`.
   */
  lemma AlGuardarContrato(tareas: map<string, Tarea>, e: Envio, falla: bool)
    ensures var r := AlGuardar(tareas, e, falla);
            (!NombreValido(e.nombreTarea) || falla ==> r.tareas == tareas && r.envio == e && !r.guardada)
            && (NombreValido(e.nombreTarea) && !falla ==>
                  var n := e.nombreTarea.value;
                  r.tareas.Keys == tareas.Keys + {n}
                  && r.tareas[n] == Deseada(e)
                  && r.tareas[n].enabled == (e.activo && Horario(e).Some?)
                  && (forall m :: m in tareas && m != n ==> r.tareas[m] == tareas[m])
                  && (n !in tareas ==> r.campos == [] && !r.guardada)
                  && (n in tareas ==> (r.guardada <==> tareas[n] != Deseada(e)))
                  && r.envio.periodicTask == Some(n)
                  && (e.estado != ERROR_CONFIG ==> (r.envio.estado == ACTIVO <==> r.tareas[n].enabled)))
  {
    if NombreValido(e.nombreTarea) && !falla {
      var n := e.nombreTarea.value;
      if n in tareas {
        DiferenciasVacia(tareas[n], Deseada(e));
      }
    }
  }

  /** Saving the same mailing again finds the periodic task as wanted and writes nothing. */
  lemma AlGuardarIdempotente(tareas: map<string, Tarea>, e: Envio)
    requires NombreValido(e.nombreTarea)
    ensures var r := AlGuardar(tareas, e, false);
            var r2 := AlGuardar(r.tareas, r.envio, false);
            r2.campos == [] && !r2.guardada && r2.tareas == r.tareas
  {
    var r := AlGuardar(tareas, e, false);
    var n := e.nombreTarea.value;
    assert Deseada(r.envio) == Deseada(e);
    DiferenciasVacia(r.tareas[n], Deseada(e));
    assert r.tareas[n := Deseada(e)] == r.tareas;
  }

  /** `crear_o_actualizar_tarea_periodica_signal`, with the program's comparisons one after the other. */
  method CrearOActualizarTareaPeriodica(tareas: map<string, Tarea>, e: Envio, falla: bool) returns (r: Efecto)
    ensures r == AlGuardar(tareas, e, falla)
  {
    var schedule := if e.crontab.Some? then e.crontab else e.intervalo;
    var taskEnabled := e.activo && schedule.Some?;
    if e.nombreTarea.None? || e.nombreTarea.value == "" {
      return Efecto(tareas, e, [], false);
    }
    if falla {
      return Efecto(tareas, e, [], false);
    }
    var taskName := e.nombreTarea.value;
    var nuevas := tareas;
    var updatedFields: seq<Campo> := [];
    var args := "[" + IntATexto(e.pk) + "]";
    var newDescription := "Envío programado: " + Prefijo(e.asunto, LARGO_ASUNTO) + "...";
    if taskName !in tareas {
      nuevas := tareas[taskName := Tarea(TASK_NAME_PROCESAR_ENVIO, taskEnabled, args, e.crontab, e.intervalo, newDescription)];
    } else {
      var pt, campos := CompararCampos(tareas[taskName], Tarea(TASK_NAME_PROCESAR_ENVIO, taskEnabled, args, e.crontab, e.intervalo, newDescription));
      updatedFields := campos;
      // `save(update_fields=...)` only when something differs; the periodic task then equals the wanted one either way
      nuevas := tareas[taskName := pt];
    }
    var envio := e;
    if e.periodicTask != Some(taskName) {
      envio := envio.(periodicTask := Some(taskName));
    }
    var currentStatus := if taskEnabled then ACTIVO else INACTIVO;
    if e.estado != currentStatus && e.estado != ERROR_CONFIG {
      envio := envio.(estado := currentStatus);
    }
    r := Efecto(nuevas, envio, updatedFields, updatedFields != []);
  }

  /** One comparison: the field is listed when it differs. */
  method Anotar(campos: seq<Campo>, difiere: bool, c: Campo) returns (r: seq<Campo>)
    ensures r == campos + Si(difiere, c)
  {
    r := campos;
    if difiere {
      r := r + [c];
    }
  }

  /** The comparisons of an existing task with the wanted one: each differing field is assigned and listed. */
  method CompararCampos(t: Tarea, d: Tarea) returns (pt: Tarea, updatedFields: seq<Campo>)
    ensures pt == d && updatedFields == Diferencias(t, d)
  {
    pt := t;
    updatedFields := Anotar([], pt.task != d.task, CTask);
    assert updatedFields == Si(t.task != d.task, CTask);
    if pt.task != d.task { pt := pt.(task := d.task); }
    updatedFields := Anotar(updatedFields, pt.enabled != d.enabled, CEnabled);
    if pt.enabled != d.enabled { pt := pt.(enabled := d.enabled); }
    updatedFields := Anotar(updatedFields, pt.args != d.args, CArgs);
    if pt.args != d.args { pt := pt.(args := d.args); }
    updatedFields := Anotar(updatedFields, pt.crontab != d.crontab, CCrontab);
    if pt.crontab != d.crontab { pt := pt.(crontab := d.crontab); }
    updatedFields := Anotar(updatedFields, pt.interval != d.interval, CInterval);
    if pt.interval != d.interval { pt := pt.(interval := d.interval); }
    updatedFields := Anotar(updatedFields, pt.description != d.description, CDescription);
    if pt.description != d.description { pt := pt.(description := d.description); }
  }

  /** `eliminar_tarea_periodica_signal`: the periodic task of that name goes if there is one; without a name nothing happens. */
  function AlEliminar(tareas: map<string, Tarea>, nombre: Option<string>): (r: map<string, Tarea>)
    ensures !NombreValido(nombre) ==> r == tareas
    ensures NombreValido(nombre) ==> r.Keys == tareas.Keys - {nombre.value}
    ensures forall m :: m in r ==> m in tareas && r[m] == tareas[m]
  {
    if !NombreValido(nombre) then tareas
    else if nombre.value in tareas then tareas - {nombre.value}
    else tareas
  }
}

/**
 * `procesar_clasificacion` of `Compras/utils.py`: the selected articles are
 * sorted by section, warehouse and descending amount, grouped by section and
 * warehouse, and each group is walked by descending amount with each
 * article's share of the group total and the running cumulative share; every
 * article is upserted into the processed table with the class its cumulative
 * share falls into, and the process ends `procesado`.
 *
 * The processed table of one process is a map from (code, warehouse) to the
 * stored row and its confirmation flag.
 */
module ClasificacionProceso {
  import opened Resultados
  import opened Decimales
  import opened Ordenacion
  import opened Clasificacion
  import ModelosCompras

  // ------------------------------------------------------------ Orders

  /** The sort key `(seccion, almacen, -importe)`, for sections that are all present or all missing. */
  predicate AntesTemporal(a: Candidato, b: Candidato)
  {
    var sa := a.seccion.GetOr("");
    var sb := b.seccion.GetOr("");
    if sa != sb then MenorTexto(sa, sb)
    else if a.almacen != b.almacen then MenorTexto(a.almacen, b.almacen)
    else a.importe > b.importe
  }

  /** The key `-importe` of the walk inside a group. */
  predicate MayorImporte(a: Candidato, b: Candidato)
  {
    a.importe > b.importe
  }

  /** Three strings under the code-point order: total, asymmetric, transitive both ways. */
  lemma TresTextos(x: string, y: string, z: string)
    ensures !MenorTexto(x, x) && !MenorTexto(y, y) && !MenorTexto(z, z)
    ensures x == y || MenorTexto(x, y) || MenorTexto(y, x)
    ensures y == z || MenorTexto(y, z) || MenorTexto(z, y)
    ensures x == z || MenorTexto(x, z) || MenorTexto(z, x)
    ensures !(MenorTexto(x, z) && MenorTexto(z, x))
    ensures MenorTexto(x, y) && MenorTexto(y, z) ==> MenorTexto(x, z)
    ensures MenorTexto(z, y) && MenorTexto(y, x) ==> MenorTexto(z, x)
  {
    MenorTextoIrreflexivo(x);
    MenorTextoIrreflexivo(y);
    MenorTextoIrreflexivo(z);
    MenorTextoTotal(x, y);
    MenorTextoTotal(y, z);
    MenorTextoTotal(x, z);
    if MenorTexto(x, z) { MenorTextoAsimetrico(x, z); }
    if MenorTexto(x, y) && MenorTexto(y, z) { MenorTextoTransitivo(x, y, z); }
    if MenorTexto(z, y) && MenorTexto(y, x) { MenorTextoTransitivo(z, y, x); }
  }

  lemma AntesTransitivo(a: Candidato, b: Candidato, c: Candidato)
    requires AntesTemporal(a, b) && AntesTemporal(b, c)
    ensures AntesTemporal(a, c)
  {
    TresTextos(a.seccion.GetOr(""), b.seccion.GetOr(""), c.seccion.GetOr(""));
    TresTextos(a.almacen, b.almacen, c.almacen);
  }

  lemma AntesComparable(a: Candidato, b: Candidato, c: Candidato)
    requires AntesTemporal(a, c)
    ensures AntesTemporal(a, b) || AntesTemporal(b, c)
  {
    TresTextos(a.seccion.GetOr(""), b.seccion.GetOr(""), c.seccion.GetOr(""));
    TresTextos(a.almacen, b.almacen, c.almacen);
  }

  /** The sort key is a strict weak order, so the stable sort is well defined. */
  lemma AntesOrdenDebil()
    ensures OrdenDebil(AntesTemporal)
  {
    forall a, b, c | AntesTemporal(a, b) && AntesTemporal(b, c) ensures AntesTemporal(a, c) {
      AntesTransitivo(a, b, c);
    }
    forall a, b, c | AntesTemporal(a, c) ensures AntesTemporal(a, b) || AntesTemporal(b, c) {
      AntesComparable(a, b, c);
    }
  }

  lemma MayorImporteOrdenDebil()
    ensures OrdenDebil(MayorImporte)
  {
  }

  /**
   * Python compares `None` with a `str` only by raising `TypeError`; a sort
   * of at least one missing and one present section compares such a pair.
   */
  predicate SeccionesMezcladas(cs: seq<Candidato>)
  {
    (exists i :: 0 <= i < |cs| && cs[i].seccion.None?)
    && (exists j :: 0 <= j < |cs| && cs[j].seccion.Some?)
  }

  const ERROR_TIPO := "TypeError"

  /**
   * Some selected article has no section. The processed table's `seccion`
   * column is NOT NULL, so `update_or_create` cannot store such an article.
   */
  predicate AlgunaSinSeccion(cs: seq<Candidato>)
  {
    exists i :: 0 <= i < |cs| && cs[i].seccion.None?
  }

  const ERROR_INTEGRIDAD := "IntegrityError"

  /** The `groupby` key. */
  function ClaveGrupo(c: Candidato): (Option<string>, string)
  {
    (c.seccion, c.almacen)
  }

  // ------------------------------------------------------------- Groups

  /** `sum(importe_num)` of a group. */
  function Total(s: seq<Candidato>): real
  {
    if s == [] then 0.0 else Total(s[..|s| - 1]) + s[|s| - 1].importe
  }

  /** `pct`: the share of the group total in percent, 0 for a non-positive total. */
  function Pct(importe: real, total: real): (r: real)
    ensures total > 0.0 ==> r * total == importe * 100.0
    ensures total <= 0.0 ==> r == 0.0
  {
    if total > 0.0 then importe / total * 100.0 else 0.0
  }

  /** The running `acumulado` after the first `k` articles. */
  function Acumulado(s: seq<Candidato>, total: real, k: nat): real
    requires k <= |s|
  {
    if k == 0 then 0.0 else Acumulado(s, total, k - 1) + Pct(s[k - 1].importe, total)
  }

  /** An `ArticuloClasificacionProcesado` row as the loop writes it. */
  datatype ArticuloProcesado = ArticuloProcesado(
    codigo: string,
    almacen: string,
    seccion: Option<string>,
    descripcion: string,
    referencia: Option<string>,
    marca: Option<string>,
    clasificacionActual: string,
    sumaImporte: real,
    importeNum: real,
    sumaUnidades: Option<int>,
    porcentajeAcumulado: real,
    nuevaClasificacion: string)

  /** `suma_unidades` is an integer column: the float units are truncated on save. */
  function Unidades(u: Option<real>): (r: Option<int>)
    ensures u.None? <==> r.None?
    ensures u.Some? ==> r.value as real <= u.value || u.value < 0.0
  {
    match u
    case None => None
    case Some(x) => Some(Truncar(x))
  }

  /** The row written for the `i`-th article of the walk. */
  function FilaEn(orden: seq<Candidato>, total: real, tabla: seq<Regla>, i: nat): ArticuloProcesado
    requires i < |orden|
  {
    var c := orden[i];
    var acumulado := Acumulado(orden, total, i + 1);
    ArticuloProcesado(c.codigo, c.almacen, c.seccion, c.descripcion, c.referencia, c.marca,
                      c.clasificacionActual, Pct(c.importe, total), c.importe, Unidades(c.unidades),
                      acumulado, CalcularClasificacion(tabla, acumulado))
  }

  /** The rows written for the first `k` articles of the walk. */
  function FilasHasta(orden: seq<Candidato>, total: real, tabla: seq<Regla>, k: nat): (r: seq<ArticuloProcesado>)
    requires k <= |orden|
    ensures |r| == k
  {
    if k == 0 then [] else FilasHasta(orden, total, tabla, k - 1) + [FilaEn(orden, total, tabla, k - 1)]
  }

  /** The rows of one group: walked by descending amount, shares of the group total. */
  function FilasGrupo(items: seq<Candidato>, tabla: seq<Regla>): (r: seq<ArticuloProcesado>)
    ensures |r| == |items|
  {
    FilasHasta(Ordenar(items, MayorImporte), Total(items), tabla, |items|)
  }

  lemma {:induction false} FilasHastaEn(orden: seq<Candidato>, total: real, tabla: seq<Regla>, k: nat, i: nat)
    requires i < k <= |orden|
    ensures FilasHasta(orden, total, tabla, k)[i] == FilaEn(orden, total, tabla, i)
  {
    if i < k - 1 {
      FilasHastaEn(orden, total, tabla, k - 1, i);
    }
  }

  /** The inner loop of one group. */
  method ProcesarGrupo(items: seq<Candidato>, tabla: seq<Regla>) returns (filas: seq<ArticuloProcesado>)
    ensures filas == FilasGrupo(items, tabla)
  {
    var orden := Ordenar(items, MayorImporte);
    var total := Total(items);
    var acumulado := 0.0;
    filas := [];
    var k := 0;
    while k < |orden|
      invariant 0 <= k <= |orden| == |items|
      invariant acumulado == Acumulado(orden, total, k)
      invariant filas == FilasHasta(orden, total, tabla, k)
    {
      var temp := orden[k];
      var pct := if total > 0.0 then temp.importe / total * 100.0 else 0.0;
      acumulado := acumulado + pct;
      var nueva := CalcularClasificacion(tabla, acumulado);
      filas := filas + [ArticuloProcesado(temp.codigo, temp.almacen, temp.seccion, temp.descripcion,
                                          temp.referencia, temp.marca, temp.clasificacionActual, pct,
                                          temp.importe, Unidades(temp.unidades), acumulado, nueva)];
      k := k + 1;
    }
  }

  // ------------------------------------------------------ Group facts

  lemma {:induction false} TotalInsertar(x: Candidato, s: seq<Candidato>, menor: (Candidato, Candidato) -> bool)
    ensures Total(Insertar(x, s, menor)) == Total(s) + x.importe
  {
    if s != [] && menor(x, s[|s| - 1]) {
      var n := |s| - 1;
      TotalInsertar(x, s[..n], menor);
      var r := Insertar(x, s[..n], menor) + [s[n]];
      assert r[..|r| - 1] == Insertar(x, s[..n], menor);
    } else if s != [] {
      assert (s + [x])[..|s|] == s;
    }
  }

  /** Sorting does not change the total. */
  lemma {:induction false} TotalOrdenar(s: seq<Candidato>, menor: (Candidato, Candidato) -> bool)
    ensures Total(Ordenar(s, menor)) == Total(s)
  {
    if s != [] {
      TotalOrdenar(s[..|s| - 1], menor);
      TotalInsertar(s[|s| - 1], Ordenar(s[..|s| - 1], menor), menor);
    }
  }

  /** The running share after `k` articles is their amount as a percentage of the total. */
  lemma {:induction false} AcumuladoParcial(s: seq<Candidato>, total: real, k: nat)
    requires k <= |s| && total > 0.0
    ensures Acumulado(s, total, k) * total == Total(s[..k]) * 100.0
  {
    if k > 0 {
      AcumuladoParcial(s, total, k - 1);
      assert s[..k][..k - 1] == s[..k - 1];
      var p := Pct(s[k - 1].importe, total);
      Distribuir3(Acumulado(s, total, k - 1), p, total);
    }
  }

  lemma Distribuir3(a: real, b: real, c: real)
    ensures (a + b) * c == a * c + b * c
  {
  }

  lemma {:induction false} AcumuladoMonotono(s: seq<Candidato>, total: real, i: nat, j: nat)
    requires i <= j <= |s|
    requires forall k :: 0 <= k < |s| ==> s[k].importe >= 0.0
    ensures Acumulado(s, total, i) <= Acumulado(s, total, j)
    decreases j
  {
    if i < j {
      AcumuladoMonotono(s, total, i, j - 1);
      PctNoNegativo(s[j - 1].importe, total);
    }
  }

  lemma PctNoNegativo(x: real, total: real)
    requires x >= 0.0
    ensures Pct(x, total) >= 0.0
  {
    if total > 0.0 {
      var p := Pct(x, total);
      if p < 0.0 {
        MultiplicarEstricto(p, 0.0, total);
      }
    }
  }

  lemma {:induction false} TotalPositivo(s: seq<Candidato>)
    requires forall k :: 0 <= k < |s| ==> s[k].importe > 0.0
    ensures s != [] ==> Total(s) > 0.0
    ensures Total(s) >= 0.0
  {
    if s != [] {
      TotalPositivo(s[..|s| - 1]);
    }
  }

  /** Within a group the rows come by descending amount. */
  lemma GrupoDescendente(items: seq<Candidato>, tabla: seq<Regla>)
    ensures forall i, j :: 0 <= i < j < |items| ==>
              FilasGrupo(items, tabla)[i].importeNum >= FilasGrupo(items, tabla)[j].importeNum
  {
    MayorImporteOrdenDebil();
    OrdenarOrdenada(items, MayorImporte);
    FilasDescendentes(Ordenar(items, MayorImporte), Total(items), tabla);
  }

  lemma FilasDescendentes(orden: seq<Candidato>, total: real, tabla: seq<Regla>)
    requires Ordenada(orden, MayorImporte)
    ensures forall i, j :: 0 <= i < j < |orden| ==>
              FilasHasta(orden, total, tabla, |orden|)[i].importeNum >= FilasHasta(orden, total, tabla, |orden|)[j].importeNum
  {
    var f := FilasHasta(orden, total, tabla, |orden|);
    forall i, j | 0 <= i < j < |f| ensures f[i].importeNum >= f[j].importeNum {
      FilasHastaEn(orden, total, tabla, |orden|, i);
      FilasHastaEn(orden, total, tabla, |orden|, j);
      assert !MayorImporte(orden[j], orden[i]);
    }
  }

  /** The articles of a sorted group keep the positive amounts of the group. */
  lemma OrdenPositivo(items: seq<Candidato>)
    requires forall k :: 0 <= k < |items| ==> items[k].importe > 0.0
    ensures forall k :: 0 <= k < |Ordenar(items, MayorImporte)| ==> Ordenar(items, MayorImporte)[k].importe > 0.0
  {
    var orden := Ordenar(items, MayorImporte);
    forall k | 0 <= k < |orden| ensures orden[k].importe > 0.0 {
      assert orden[k] in multiset(items);
    }
  }

  /** Within a group of positive amounts the cumulative share never decreases. */
  lemma GrupoCreciente(items: seq<Candidato>, tabla: seq<Regla>)
    requires forall k :: 0 <= k < |items| ==> items[k].importe > 0.0
    ensures forall i, j :: 0 <= i < j < |items| ==>
              FilasGrupo(items, tabla)[i].porcentajeAcumulado <= FilasGrupo(items, tabla)[j].porcentajeAcumulado
  {
    OrdenPositivo(items);
    FilasCrecientes(Ordenar(items, MayorImporte), Total(items), tabla);
  }

  lemma FilasCrecientes(orden: seq<Candidato>, total: real, tabla: seq<Regla>)
    requires forall k :: 0 <= k < |orden| ==> orden[k].importe > 0.0
    ensures forall i, j :: 0 <= i < j < |orden| ==>
              FilasHasta(orden, total, tabla, |orden|)[i].porcentajeAcumulado
              <= FilasHasta(orden, total, tabla, |orden|)[j].porcentajeAcumulado
  {
    var f := FilasHasta(orden, total, tabla, |orden|);
    forall i, j | 0 <= i < j < |f| ensures f[i].porcentajeAcumulado <= f[j].porcentajeAcumulado {
      FilasHastaEn(orden, total, tabla, |orden|, i);
      FilasHastaEn(orden, total, tabla, |orden|, j);
      AcumuladoMonotono(orden, total, i + 1, j + 1);
    }
  }

  /** Within a non-empty group of positive amounts the last cumulative share is exactly 100. */
  lemma GrupoCien(items: seq<Candidato>, tabla: seq<Regla>)
    requires forall k :: 0 <= k < |items| ==> items[k].importe > 0.0
    requires items != []
    ensures FilasGrupo(items, tabla)[|items| - 1].porcentajeAcumulado == 100.0
  {
    TotalPositivo(items);
    TotalOrdenar(items, MayorImporte);
    UltimaCien(Ordenar(items, MayorImporte), Total(items), tabla);
  }

  lemma UltimaCien(orden: seq<Candidato>, total: real, tabla: seq<Regla>)
    requires orden != [] && total > 0.0 && Total(orden) == total
    ensures FilasHasta(orden, total, tabla, |orden|)[|orden| - 1].porcentajeAcumulado == 100.0
  {
    var n := |orden|;
    var a := Acumulado(orden, total, n);
    assert a * total == total * 100.0 by {
      AcumuladoParcial(orden, total, n);
      assert orden[..n] == orden;
      assert Total(orden[..n]) == total;
      assert a * total == Total(orden[..n]) * 100.0;
    }
    Cancelar(a, 100.0, total);
    FilasHastaEn(orden, total, tabla, n, n - 1);
    assert FilaEn(orden, total, tabla, n - 1).porcentajeAcumulado == a;
  }

  lemma Cancelar(a: real, b: real, c: real)
    requires c > 0.0 && a * c == c * b
    ensures a == b
  {
    if a < b { MultiplicarEstricto(a, b, c); }
    if b < a { MultiplicarEstricto(b, a, c); }
  }

  // ------------------------------------------------------------- Upsert

  /** The lookup of `update_or_create` within one process. */
  type Clave = (string, string)

  datatype Guardado = Guardado(fila: ArticuloProcesado, confirmado: bool)

  function ClaveDe(f: ArticuloProcesado): Clave
  {
    (f.codigo, f.almacen)
  }

  /**
   * `update_or_create(proceso, codigo, almacen, defaults=...)`: the row takes
   * the new values, a stored row keeps its confirmation, a new one starts
   * unconfirmed; every other row is untouched.
   */
  function Upsert(m: map<Clave, Guardado>, f: ArticuloProcesado): (r: map<Clave, Guardado>)
    ensures r.Keys == m.Keys + {ClaveDe(f)}
    ensures r[ClaveDe(f)].fila == f
    ensures r[ClaveDe(f)].confirmado == (ClaveDe(f) in m && m[ClaveDe(f)].confirmado)
    ensures forall k :: k in m && k != ClaveDe(f) ==> r[k] == m[k]
  {
    var k := ClaveDe(f);
    m[k := Guardado(f, k in m && m[k].confirmado)]
  }

  /** The `update_or_create` calls of one group, in turn. */
  method GuardarFilas(m: map<Clave, Guardado>, filas: seq<ArticuloProcesado>) returns (r: map<Clave, Guardado>)
    ensures r == UpsertTodas(m, filas)
  {
    r := m;
    var k := 0;
    while k < |filas|
      invariant 0 <= k <= |filas|
      invariant r == UpsertTodas(m, filas[..k])
    {
      assert filas[..k + 1][..k] == filas[..k];
      r := Upsert(r, filas[k]);
      k := k + 1;
    }
    assert filas[..k] == filas;
  }

  /** Upserting two runs of rows is upserting their concatenation. */
  lemma {:induction false} UpsertUnir(m: map<Clave, Guardado>, a: seq<ArticuloProcesado>, b: seq<ArticuloProcesado>)
    ensures UpsertTodas(m, a + b) == UpsertTodas(UpsertTodas(m, a), b)
    decreases |b|
  {
    if b == [] {
      assert a + b == a;
    } else {
      var n := |b| - 1;
      assert (a + b)[..|a + b| - 1] == a + b[..n];
      UpsertUnir(m, a, b[..n]);
    }
  }

  /** The rows upserted one after the other. */
  function UpsertTodas(m: map<Clave, Guardado>, fs: seq<ArticuloProcesado>): map<Clave, Guardado>
  {
    if fs == [] then m else Upsert(UpsertTodas(m, fs[..|fs| - 1]), fs[|fs| - 1])
  }

  /** The last row of `fs` with key `k`. */
  function Ultima(fs: seq<ArticuloProcesado>, k: Clave): (r: Option<ArticuloProcesado>)
    ensures r.Some? <==> exists i :: 0 <= i < |fs| && ClaveDe(fs[i]) == k
    ensures r.Some? ==> ClaveDe(r.value) == k && r.value in fs
  {
    if fs == [] then None
    else if ClaveDe(fs[|fs| - 1]) == k then Some(fs[|fs| - 1])
    else
      var r := Ultima(fs[..|fs| - 1], k);
      assert forall i :: 0 <= i < |fs| - 1 ==> fs[..|fs| - 1][i] == fs[i];
      r
  }

  /** After the upserts, a key holds its last row and its old confirmation, or its old row. */
  lemma {:induction false} UpsertPuntual(m: map<Clave, Guardado>, fs: seq<ArticuloProcesado>, k: Clave)
    ensures k in UpsertTodas(m, fs) <==> k in m || Ultima(fs, k).Some?
    ensures Ultima(fs, k).Some? ==>
              UpsertTodas(m, fs)[k] == Guardado(Ultima(fs, k).value, k in m && m[k].confirmado)
    ensures Ultima(fs, k).None? && k in m ==> UpsertTodas(m, fs)[k] == m[k]
  {
    if fs != [] {
      UpsertPuntual(m, fs[..|fs| - 1], k);
    }
  }

  /** Upserting the same rows again changes nothing: a re-run adds no duplicates. */
  lemma UpsertIdempotente(m: map<Clave, Guardado>, fs: seq<ArticuloProcesado>)
    ensures UpsertTodas(UpsertTodas(m, fs), fs) == UpsertTodas(m, fs)
  {
    var una := UpsertTodas(m, fs);
    var dos := UpsertTodas(una, fs);
    forall k ensures (k in dos <==> k in una) && (k in dos ==> dos[k] == una[k]) {
      UpsertPuntual(m, fs, k);
      UpsertPuntual(una, fs, k);
    }
    assert dos.Keys == una.Keys;
  }

  /** The stored keys are the old ones and those of the rows written. */
  lemma UpsertClaves(m: map<Clave, Guardado>, fs: seq<ArticuloProcesado>)
    ensures UpsertTodas(m, fs).Keys == m.Keys + ClavesFilas(fs)
  {
    forall k ensures k in UpsertTodas(m, fs) <==> k in m || k in ClavesFilas(fs) {
      UpsertPuntual(m, fs, k);
      if k in ClavesFilas(fs) {
        var f :| f in fs && ClaveDe(f) == k;
        var i :| 0 <= i < |fs| && fs[i] == f;
      }
    }
  }

  function ClavesFilas(fs: seq<ArticuloProcesado>): set<Clave>
  {
    set f | f in fs :: ClaveDe(f)
  }

  // ---------------------------------------------------------- The run

  /** The rows of all the groups in turn. */
  function FilasDeGrupos(gs: seq<seq<Candidato>>, tabla: seq<Regla>): seq<ArticuloProcesado>
  {
    if gs == [] then [] else FilasDeGrupos(gs[..|gs| - 1], tabla) + FilasGrupo(gs[|gs| - 1], tabla)
  }

  lemma FilasDeGruposPaso(gs: seq<seq<Candidato>>, j: nat, tabla: seq<Regla>)
    requires j < |gs|
    ensures FilasDeGrupos(gs[..j + 1], tabla) == FilasDeGrupos(gs[..j], tabla) + FilasGrupo(gs[j], tabla)
  {
    assert gs[..j + 1][..j] == gs[..j];
  }

  /** The `(seccion, almacen)` groups of the sorted selection. */
  function GruposDe(cs: seq<Candidato>): seq<seq<Candidato>>
  {
    Grupos(Ordenar(cs, AntesTemporal), ClaveGrupo)
  }

  /** The processed table of the process and the process itself after a run. */
  datatype Salida = Salida(guardados: map<Clave, Guardado>, proceso: ModelosCompras.Proceso)

  /**
   * What a run leaves: the error of a mixed sort; the error of the first
   * `update_or_create` when every section is missing (nothing is written
   * before it); or the upserted rows and the state `procesado`.
   */
  function Procesar(temps: seq<Temporal>, p: ModelosCompras.Proceso, tabla: seq<Regla>,
                    previos: map<Clave, Guardado>): Result<Salida>
  {
    var cs := Seleccion(temps, p.pk);
    if SeccionesMezcladas(cs) then Err(ERROR_TIPO)
    else if AlgunaSinSeccion(cs) then Err(ERROR_INTEGRIDAD)
    else Ok(Salida(UpsertTodas(previos, FilasDeGrupos(GruposDe(cs), tabla)),
                   p.(estado := ModelosCompras.Procesado)))
  }

  /** `procesar_clasificacion`. */
  method ProcesarClasificacion(temps: seq<Temporal>, p: ModelosCompras.Proceso, tabla: seq<Regla>,
                               previos: map<Clave, Guardado>) returns (r: Result<Salida>)
    ensures r == Procesar(temps, p, tabla, previos)
  {
    var temporales := Seleccion(temps, p.pk);
    if SeccionesMezcladas(temporales) {
      return Err(ERROR_TIPO);
    }
    if AlgunaSinSeccion(temporales) {
      // every section is missing: the first upsert already writes a NULL section
      return Err(ERROR_INTEGRIDAD);
    }
    var ordenados := Ordenar(temporales, AntesTemporal);
    var grupos := Grupos(ordenados, ClaveGrupo);
    var guardados := previos;
    var j := 0;
    while j < |grupos|
      invariant 0 <= j <= |grupos|
      invariant guardados == UpsertTodas(previos, FilasDeGrupos(grupos[..j], tabla))
    {
      var filas := ProcesarGrupo(grupos[j], tabla);
      UpsertUnir(previos, FilasDeGrupos(grupos[..j], tabla), filas);
      guardados := GuardarFilas(guardados, filas);
      FilasDeGruposPaso(grupos, j, tabla);
      j := j + 1;
    }
    assert grupos[..j] == grupos;
    r := Ok(Salida(guardados, p.(estado := ModelosCompras.Procesado)));
  }

  // ------------------------------------------------------ Run facts

  /** A run that succeeds ends the process `procesado`; running it again changes nothing. */
  lemma ReejecutarIgual(temps: seq<Temporal>, p: ModelosCompras.Proceso, tabla: seq<Regla>,
                        previos: map<Clave, Guardado>)
    requires Procesar(temps, p, tabla, previos).Ok?
    ensures var s := Procesar(temps, p, tabla, previos).value;
            s.proceso.estado == ModelosCompras.Procesado && s.proceso.pk == p.pk
            && Procesar(temps, s.proceso, tabla, s.guardados) == Ok(s)
  {
    var cs := Seleccion(temps, p.pk);
    UpsertIdempotente(previos, FilasDeGrupos(GruposDe(cs), tabla));
  }

  /**
   * A run fails exactly when some selected article has no section: with a
   * `TypeError` when present sections are selected too (the sort compares
   * the two), with an `IntegrityError` when none is present.
   */
  lemma FallaSiMezcla(temps: seq<Temporal>, p: ModelosCompras.Proceso, tabla: seq<Regla>,
                      previos: map<Clave, Guardado>)
    ensures Procesar(temps, p, tabla, previos).Err? <==> AlgunaSinSeccion(Seleccion(temps, p.pk))
    ensures Procesar(temps, p, tabla, previos) == Err(ERROR_TIPO) <==> SeccionesMezcladas(Seleccion(temps, p.pk))
    ensures Procesar(temps, p, tabla, previos) == Err(ERROR_INTEGRIDAD) <==>
              Seleccion(temps, p.pk) != [] && forall i :: 0 <= i < |Seleccion(temps, p.pk)| ==> Seleccion(temps, p.pk)[i].seccion.None?
  {
    var cs := Seleccion(temps, p.pk);
    if !SeccionesMezcladas(cs) && AlgunaSinSeccion(cs) {
      forall i | 0 <= i < |cs| ensures cs[i].seccion.None? {
        if cs[i].seccion.Some? {
          assert SeccionesMezcladas(cs);
        }
      }
    }
    if cs != [] && forall i :: 0 <= i < |cs| ==> cs[i].seccion.None? {
      assert cs[0].seccion.None?;
    }
  }

  /** The (code, warehouse) keys of a sequence of selected articles. */
  function ClavesCandidatos(cs: seq<Candidato>): set<Clave>
  {
    set c | c in cs :: (c.codigo, c.almacen)
  }

  lemma ClavesFilasMas(fs: seq<ArticuloProcesado>, f: ArticuloProcesado)
    ensures ClavesFilas(fs + [f]) == ClavesFilas(fs) + {ClaveDe(f)}
  {
    forall k | k in ClavesFilas(fs + [f]) ensures k in ClavesFilas(fs) + {ClaveDe(f)} {
      var g :| g in fs + [f] && ClaveDe(g) == k;
      if g != f { assert g in fs; }
    }
  }

  lemma ClavesCandidatosMas(cs: seq<Candidato>, c: Candidato)
    ensures ClavesCandidatos(cs + [c]) == ClavesCandidatos(cs) + {(c.codigo, c.almacen)}
  {
    forall k | k in ClavesCandidatos(cs + [c]) ensures k in ClavesCandidatos(cs) + {(c.codigo, c.almacen)} {
      var d :| d in cs + [c] && (d.codigo, d.almacen) == k;
      if d != c { assert d in cs; }
    }
  }

  lemma ClavesCandidatosUnir(a: seq<Candidato>, b: seq<Candidato>)
    ensures ClavesCandidatos(a + b) == ClavesCandidatos(a) + ClavesCandidatos(b)
  {
    forall k | k in ClavesCandidatos(a + b) ensures k in ClavesCandidatos(a) + ClavesCandidatos(b) {
      var d :| d in a + b && (d.codigo, d.almacen) == k;
    }
  }

  lemma ClavesFilasUnir(a: seq<ArticuloProcesado>, b: seq<ArticuloProcesado>)
    ensures ClavesFilas(a + b) == ClavesFilas(a) + ClavesFilas(b)
  {
    forall k | k in ClavesFilas(a + b) ensures k in ClavesFilas(a) + ClavesFilas(b) {
      var f :| f in a + b && ClaveDe(f) == k;
    }
  }

  lemma ClavesPermutacion(a: seq<Candidato>, b: seq<Candidato>)
    requires multiset(a) == multiset(b)
    ensures ClavesCandidatos(a) == ClavesCandidatos(b)
  {
    forall c ensures c in a <==> c in b {
      assert c in a <==> c in multiset(a);
      assert c in b <==> c in multiset(b);
    }
  }

  lemma {:induction false} ClavesHasta(orden: seq<Candidato>, total: real, tabla: seq<Regla>, k: nat)
    requires k <= |orden|
    ensures ClavesFilas(FilasHasta(orden, total, tabla, k)) == ClavesCandidatos(orden[..k])
  {
    if k == 0 {
      assert orden[..0] == [];
    } else {
      ClavesHasta(orden, total, tabla, k - 1);
      ClavesFilasMas(FilasHasta(orden, total, tabla, k - 1), FilaEn(orden, total, tabla, k - 1));
      assert orden[..k] == orden[..k - 1] + [orden[k - 1]];
      ClavesCandidatosMas(orden[..k - 1], orden[k - 1]);
    }
  }

  /** A group writes one row key per article key. */
  lemma ClavesGrupo(items: seq<Candidato>, tabla: seq<Regla>)
    ensures ClavesFilas(FilasGrupo(items, tabla)) == ClavesCandidatos(items)
  {
    var orden := Ordenar(items, MayorImporte);
    ClavesHasta(orden, Total(items), tabla, |items|);
    assert orden[..|items|] == orden;
    ClavesPermutacion(orden, items);
  }

  lemma {:induction false} ClavesDeGrupos(gs: seq<seq<Candidato>>, tabla: seq<Regla>)
    ensures ClavesFilas(FilasDeGrupos(gs, tabla)) == ClavesCandidatos(Aplanar(gs))
  {
    if gs == [] {
      assert ClavesFilas([]) == {};
    } else {
      var n := |gs| - 1;
      ClavesDeGrupos(gs[..n], tabla);
      ClavesFilasUnir(FilasDeGrupos(gs[..n], tabla), FilasGrupo(gs[n], tabla));
      ClavesGrupo(gs[n], tabla);
      ClavesCandidatosUnir(Aplanar(gs[..n]), gs[n]);
    }
  }

  /**
   * After a run the processed table holds the rows it had before and one row
   * for each (code, warehouse) of the selected articles, and nothing else.
   */
  lemma ClavesDelProceso(temps: seq<Temporal>, p: ModelosCompras.Proceso, tabla: seq<Regla>,
                         previos: map<Clave, Guardado>)
    requires Procesar(temps, p, tabla, previos).Ok?
    ensures Procesar(temps, p, tabla, previos).value.guardados.Keys
            == previos.Keys + ClavesCandidatos(Seleccion(temps, p.pk))
  {
    var cs := Seleccion(temps, p.pk);
    var fs := FilasDeGrupos(GruposDe(cs), tabla);
    UpsertClaves(previos, fs);
    ClavesDeSeleccion(cs, tabla);
  }

  /** Each row carries the class that the rules give its cumulative share. */
  ghost predicate ClasesCoherentes(fs: seq<ArticuloProcesado>, tabla: seq<Regla>)
  {
    forall i :: 0 <= i < |fs| ==> fs[i].nuevaClasificacion == CalcularClasificacion(tabla, fs[i].porcentajeAcumulado)
  }

  /** Every row a run writes carries the class of its own cumulative share. */
  lemma {:induction false} ClasesDeGrupos(gs: seq<seq<Candidato>>, tabla: seq<Regla>)
    ensures ClasesCoherentes(FilasDeGrupos(gs, tabla), tabla)
  {
    if gs != [] {
      var n := |gs| - 1;
      ClasesDeGrupos(gs[..n], tabla);
      var a := FilasDeGrupos(gs[..n], tabla);
      var b := FilasGrupo(gs[n], tabla);
      forall i | 0 <= i < |b|
        ensures b[i].nuevaClasificacion == CalcularClasificacion(tabla, b[i].porcentajeAcumulado)
      {
        FilasHastaEn(Ordenar(gs[n], MayorImporte), Total(gs[n]), tabla, |gs[n]|, i);
      }
      forall i | 0 <= i < |a + b|
        ensures (a + b)[i].nuevaClasificacion == CalcularClasificacion(tabla, (a + b)[i].porcentajeAcumulado)
      {
        if i >= |a| { assert (a + b)[i] == b[i - |a|]; } else { assert (a + b)[i] == a[i]; }
      }
    }
  }

  /** A key that some coherent row writes ends up holding a coherent row. */
  lemma GuardadoCoherente(m: map<Clave, Guardado>, fs: seq<ArticuloProcesado>, tabla: seq<Regla>, k: Clave)
    requires ClasesCoherentes(fs, tabla) && k in ClavesFilas(fs)
    ensures k in UpsertTodas(m, fs)
    ensures UpsertTodas(m, fs)[k].fila.nuevaClasificacion
            == CalcularClasificacion(tabla, UpsertTodas(m, fs)[k].fila.porcentajeAcumulado)
    ensures UpsertTodas(m, fs)[k].confirmado == (k in m && m[k].confirmado)
  {
    var f :| f in fs && ClaveDe(f) == k;
    var i :| 0 <= i < |fs| && fs[i] == f;
    UpsertPuntual(m, fs, k);
    var u := Ultima(fs, k).value;
    var j :| 0 <= j < |fs| && fs[j] == u;
  }

  /** The keys of the selected articles are the keys of the rows a run writes. */
  lemma ClavesDeSeleccion(cs: seq<Candidato>, tabla: seq<Regla>)
    ensures ClavesFilas(FilasDeGrupos(GruposDe(cs), tabla)) == ClavesCandidatos(cs)
  {
    ClavesDeGrupos(GruposDe(cs), tabla);
    GruposAplanar(Ordenar(cs, AntesTemporal), ClaveGrupo);
    ClavesPermutacion(Ordenar(cs, AntesTemporal), cs);
  }

  /** A selected article's stored row holds the class its cumulative share falls into. */
  lemma ClaseGuardada(temps: seq<Temporal>, p: ModelosCompras.Proceso, tabla: seq<Regla>,
                      previos: map<Clave, Guardado>, k: Clave)
    requires Procesar(temps, p, tabla, previos).Ok?
    requires k in ClavesCandidatos(Seleccion(temps, p.pk))
    ensures var g := Procesar(temps, p, tabla, previos).value.guardados;
            k in g && g[k].fila.nuevaClasificacion == CalcularClasificacion(tabla, g[k].fila.porcentajeAcumulado)
            && g[k].confirmado == (k in previos && previos[k].confirmado)
  {
    var cs := Seleccion(temps, p.pk);
    var fs := FilasDeGrupos(GruposDe(cs), tabla);
    ClavesDeSeleccion(cs, tabla);
    ClasesDeGrupos(GruposDe(cs), tabla);
    GuardadoCoherente(previos, fs, tabla, k);
  }
}

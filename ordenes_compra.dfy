/**
 * The purchase orders `Compras/admin.py` writes for a lot: the lot action
 * `accion_generar_orden_compra` and its copy in the line admin,
 * `importar_a_icg`. The lot's lines with a positive quantity that are not
 * class I are grouped by supplier and warehouse, in the order the keys first
 * appear; each group becomes one order whose total is the sum of its lines'
 * costs, every grouped line becomes ORDENADA and the lot COMPLETADO.
 *
 * An order's lines are positions in the list of the lot's lines, since the
 * program marks the very line objects it grouped. What the ICG call returns
 * for each order is an input (`Envio`).
 */
module OrdenesCompra {
  import opened Resultados
  import opened Textos
  import opened Lineas

  // ------------------------------------------------------------ Which lines, grouped how

  /** `(ln.sugerido_interno or 0) or (ln.sugerido_calculado or 0)`: a zero internal quantity counts as absent. */
  function Cantidad(ln: SugeridoLinea): real
  {
    if ln.sugeridoInterno.Some? && ln.sugeridoInterno.value != 0.0 then ln.sugeridoInterno.value
    else ln.sugeridoCalculado.GetOr(0.0)
  }

  /** Lines of class I (in any case, not stripped) and lines with nothing to order are skipped. */
  predicate Incluida(ln: SugeridoLinea)
  {
    Upper(ln.clasificacion.GetOr("")) != "I" && Cantidad(ln) > 0.0
  }

  /** The key an order is grouped by. */
  datatype ClaveOrden = ClaveOrden(proveedor: Option<int>, codAlmacen: string, nombreAlmacen: Option<string>)

  function ClaveDe(ln: SugeridoLinea): ClaveOrden
  {
    ClaveOrden(ln.proveedor, ln.codAlmacen, ln.nombreAlmacen)
  }

  /** The keys of the included lines, in the order they first appear (the order of the dictionary). */
  function Claves(lineas: seq<SugeridoLinea>): (r: seq<ClaveOrden>)
  {
    if lineas == [] then []
    else
      var previas := Claves(lineas[..|lineas| - 1]);
      var ln := lineas[|lineas| - 1];
      if Incluida(ln) && ClaveDe(ln) !in previas then previas + [ClaveDe(ln)] else previas
  }

  /** The positions of the included lines with key `k`, in order. */
  function Posiciones(lineas: seq<SugeridoLinea>, k: ClaveOrden): (r: seq<nat>)
  {
    if lineas == [] then []
    else
      var n := |lineas| - 1;
      Posiciones(lineas[..n], k) + (if Incluida(lineas[n]) && ClaveDe(lineas[n]) == k then [n] else [])
  }

  predicate Distintas<T(==)>(s: seq<T>)
  {
    forall i, j :: 0 <= i < j < |s| ==> s[i] != s[j]
  }

  predicate Crecientes(s: seq<nat>)
  {
    forall i, j :: 0 <= i < j < |s| ==> s[i] < s[j]
  }

  /** Every position is below `n`. */
  predicate DentroDe(ps: seq<nat>, n: nat)
  {
    forall i :: 0 <= i < |ps| ==> ps[i] < n
  }

  /** The keys are those of the included lines, each once. */
  lemma {:induction false} ClavesDistintas(lineas: seq<SugeridoLinea>)
    ensures Distintas(Claves(lineas))
    decreases |lineas|
  {
    if lineas != [] {
      ClavesDistintas(lineas[..|lineas| - 1]);
    }
  }

  lemma ClavesExactas(lineas: seq<SugeridoLinea>, k: ClaveOrden)
    ensures k in Claves(lineas) <==> exists i :: 0 <= i < |lineas| && Incluida(lineas[i]) && ClaveDe(lineas[i]) == k
  {
    if k in Claves(lineas) {
      ClaveDeAlguna(lineas, k);
    }
    if exists i :: 0 <= i < |lineas| && Incluida(lineas[i]) && ClaveDe(lineas[i]) == k {
      var i :| 0 <= i < |lineas| && Incluida(lineas[i]) && ClaveDe(lineas[i]) == k;
      ClaveListada(lineas, i);
    }
  }

  /** A listed key is that of some included line. */
  lemma {:induction false} ClaveDeAlguna(lineas: seq<SugeridoLinea>, k: ClaveOrden)
    requires k in Claves(lineas)
    ensures exists i :: 0 <= i < |lineas| && Incluida(lineas[i]) && ClaveDe(lineas[i]) == k
    decreases |lineas|
  {
    var n := |lineas| - 1;
    if k in Claves(lineas[..n]) {
      ClaveDeAlguna(lineas[..n], k);
      var i :| 0 <= i < n && Incluida(lineas[..n][i]) && ClaveDe(lineas[..n][i]) == k;
      assert lineas[i] == lineas[..n][i];
    } else {
      assert Incluida(lineas[n]) && ClaveDe(lineas[n]) == k;
    }
  }

  /** The key of every included line is listed. */
  lemma {:induction false} ClaveListada(lineas: seq<SugeridoLinea>, i: nat)
    requires i < |lineas| && Incluida(lineas[i])
    ensures ClaveDe(lineas[i]) in Claves(lineas)
    decreases |lineas|
  {
    var n := |lineas| - 1;
    if i < n {
      ClaveListada(lineas[..n], i);
      assert lineas[..n][i] == lineas[i];
    }
  }

  /** A group holds exactly the included lines of its key, in their order. */
  lemma {:induction false} PosicionesExactas(lineas: seq<SugeridoLinea>, k: ClaveOrden, p: int)
    ensures Crecientes(Posiciones(lineas, k))
    ensures DentroDe(Posiciones(lineas, k), |lineas|)
    ensures p in Posiciones(lineas, k) <==> 0 <= p < |lineas| && Incluida(lineas[p]) && ClaveDe(lineas[p]) == k
    decreases |lineas|
  {
    if lineas != [] {
      var n := |lineas| - 1;
      PosicionesExactas(lineas[..n], k, p);
      var qs := Posiciones(lineas[..n], k);
      assert forall i :: 0 <= i < |qs| ==> qs[i] < n;
      if 0 <= p < n {
        assert lineas[..n][p] == lineas[p];
      }
    }
  }

  /** A key no included line has has no positions. */
  lemma {:induction false} PosicionesDeOtra(lineas: seq<SugeridoLinea>, k: ClaveOrden)
    requires k !in Claves(lineas)
    ensures Posiciones(lineas, k) == []
    decreases |lineas|
  {
    if lineas != [] {
      var n := |lineas| - 1;
      PosicionesDeOtra(lineas[..n], k);
    }
  }

  // ------------------------------------------------------------ Orders

  /** An `OrdenCompraLinea`. */
  datatype LineaOrden = LineaOrden(
    codigoArticulo: string,
    descripcion: Option<string>,
    embalaje: Option<int>,
    cantidad: real,
    costoUnitario: Option<real>,
    costoTotal: real,
    clasificacion: Option<string>)

  /** Quantity times the last cost, a missing cost counting as 0. */
  function Costo(ln: SugeridoLinea): real
  {
    Cantidad(ln) * ln.ultimoCosto.GetOr(0.0)
  }

  function LineaDe(ln: SugeridoLinea): (f: LineaOrden)
  {
    LineaOrden(ln.codigoArticulo, ln.descripcion, ln.embalaje, Cantidad(ln), ln.ultimoCosto, Costo(ln), ln.clasificacion)
  }

  /** The order lines of the lines at positions `ps`. */
  function Filas(lineas: seq<SugeridoLinea>, ps: seq<nat>): (r: seq<LineaOrden>)
    requires DentroDe(ps, |lineas|)
    ensures |r| == |ps|
  {
    seq(|ps|, i requires 0 <= i < |ps| => LineaDe(lineas[ps[i]]))
  }

  /** The order lines of key `k`. */
  function FilasDe(lineas: seq<SugeridoLinea>, k: ClaveOrden): (r: seq<LineaOrden>)
  {
    PosicionesEnRango(lineas);
    Filas(lineas, Posiciones(lineas, k))
  }

  function Suma(filas: seq<LineaOrden>): real
  {
    if filas == [] then 0.0 else Suma(filas[..|filas| - 1]) + filas[|filas| - 1].costoTotal
  }

  /** What the ICG call answered for one order. */
  datatype Envio = Envio(exito: bool, idOrdenIcg: Option<string>, mensaje: string)

  /** An `OrdenCompra`; the ICG id is kept only when the call succeeded. */
  datatype Orden = Orden(
    lote: int,
    proveedor: Option<int>,
    codAlmacen: string,
    nombreAlmacen: Option<string>,
    lineas: seq<LineaOrden>,
    costoTotal: real,
    idOrdenIcg: Option<string>)

  /** An `OrdenICGLog` row: every call is logged, successful or not. */
  datatype Registro = Registro(exito: bool, idOrdenIcg: Option<string>, mensaje: string)

  function OrdenDe(lote: int, k: ClaveOrden, filas: seq<LineaOrden>, e: Envio): (o: Orden)
  {
    Orden(lote, k.proveedor, k.codAlmacen, k.nombreAlmacen, filas, Suma(filas), if e.exito then e.idOrdenIcg else None)
  }

  /** The line after `estado_linea = ORDENADA`. */
  function Ordenada(ln: SugeridoLinea): SugeridoLinea
  {
    ln.(estadoLinea := Some(ORDENADA))
  }

  /** The lines with those at positions `ps` marked ORDENADA. */
  function MarcarEn(actual: seq<SugeridoLinea>, ps: seq<nat>): (r: seq<SugeridoLinea>)
    ensures |r| == |actual|
  {
    seq(|actual|, i requires 0 <= i < |actual| => if i in ps then Ordenada(actual[i]) else actual[i])
  }

  /** The orders of the first `j` keys. */
  function OrdenesHasta(lote: int, lineas: seq<SugeridoLinea>, claves: seq<ClaveOrden>, envios: seq<Envio>, j: nat): (r: seq<Orden>)
    requires j <= |claves| && j <= |envios|
    ensures |r| == j
  {
    if j == 0 then []
    else OrdenesHasta(lote, lineas, claves, envios, j - 1)
         + [OrdenDe(lote, claves[j - 1], FilasDe(lineas, claves[j - 1]), envios[j - 1])]
  }

  function RegistrosHasta(envios: seq<Envio>, j: nat): (r: seq<Registro>)
    requires j <= |envios|
  {
    if j == 0 then [] else RegistrosHasta(envios, j - 1) + [Registro(envios[j - 1].exito, envios[j - 1].idOrdenIcg, envios[j - 1].mensaje)]
  }

  /** The lines after the first `j` groups have been marked. */
  function LineasHasta(lineas: seq<SugeridoLinea>, claves: seq<ClaveOrden>, j: nat): (r: seq<SugeridoLinea>)
    requires j <= |claves|
    ensures |r| == |lineas|
  {
    if j == 0 then lineas else MarcarEn(LineasHasta(lineas, claves, j - 1), Posiciones(lineas, claves[j - 1]))
  }

  /** What one lot's generation writes. */
  datatype Generado = Generado(ordenes: seq<Orden>, registros: seq<Registro>, lineas: seq<SugeridoLinea>,
                               lote: SugeridoLote, generadas: nat)

  lemma PosicionesEnRango(lineas: seq<SugeridoLinea>)
    ensures forall c :: DentroDe(Posiciones(lineas, c), |lineas|)
  {
    forall c ensures DentroDe(Posiciones(lineas, c), |lineas|) {
      PosicionesExactas(lineas, c, 0);
    }
  }

  /** One lot: an order per key, the grouped lines ORDENADA, the lot COMPLETADO. */
  function Generacion(lote: SugeridoLote, lineas: seq<SugeridoLinea>, envios: seq<Envio>): (g: Generado)
    requires |Claves(lineas)| <= |envios|
  {
    var claves := Claves(lineas);
    Generado(OrdenesHasta(lote.id, lineas, claves, envios, |claves|), RegistrosHasta(envios, |claves|),
             LineasHasta(lineas, claves, |claves|), lote.(estado := COMPLETADO), |claves|)
  }

  // ------------------------------------------------------------ Properties

  /** Exactly the included lines end ORDENADA; the others are untouched. */
  lemma LineasGeneradas(lote: SugeridoLote, lineas: seq<SugeridoLinea>, envios: seq<Envio>, i: nat)
    requires |Claves(lineas)| <= |envios| && i < |lineas|
    ensures Generacion(lote, lineas, envios).lineas[i] == if Incluida(lineas[i]) then Ordenada(lineas[i]) else lineas[i]
  {
    var claves := Claves(lineas);
    MarcadasHasta(lineas, claves, |claves|, i);
    assert claves[..|claves|] == claves;
    EnAlgunaClave(lineas, claves, i);
    ClavesExactas(lineas, ClaveDe(lineas[i]));
  }

  /** Line `i` is held by the group of one of the keys `cs`. */
  predicate EnAlguna(lineas: seq<SugeridoLinea>, cs: seq<ClaveOrden>, i: nat)
  {
    cs != [] && (i in Posiciones(lineas, cs[|cs| - 1]) || EnAlguna(lineas, cs[..|cs| - 1], i))
  }

  lemma {:induction false} EnAlgunaClave(lineas: seq<SugeridoLinea>, cs: seq<ClaveOrden>, i: nat)
    requires i < |lineas|
    ensures EnAlguna(lineas, cs, i) <==> Incluida(lineas[i]) && ClaveDe(lineas[i]) in cs
    decreases |cs|
  {
    if cs != [] {
      var m := |cs| - 1;
      EnAlgunaClave(lineas, cs[..m], i);
      PosicionesExactas(lineas, cs[m], i);
      assert cs == cs[..m] + [cs[m]];
    }
  }

  /** After `j` groups, a line is marked exactly when one of those groups holds it. */
  lemma {:induction false} MarcadasHasta(lineas: seq<SugeridoLinea>, claves: seq<ClaveOrden>, j: nat, i: nat)
    requires j <= |claves| && i < |lineas|
    ensures LineasHasta(lineas, claves, j)[i] == if EnAlguna(lineas, claves[..j], i) then Ordenada(lineas[i]) else lineas[i]
  {
    if j > 0 {
      MarcadasHasta(lineas, claves, j - 1, i);
      EnAlgunaUltima(lineas, claves, j, i);
      MarcarEnIndice(LineasHasta(lineas, claves, j - 1), Posiciones(lineas, claves[j - 1]), i);
    } else {
      assert claves[..j] == [];
    }
  }

  lemma EnAlgunaUltima(lineas: seq<SugeridoLinea>, claves: seq<ClaveOrden>, j: nat, i: nat)
    requires 0 < j <= |claves|
    ensures EnAlguna(lineas, claves[..j], i) <==> i in Posiciones(lineas, claves[j - 1]) || EnAlguna(lineas, claves[..j - 1], i)
  {
    assert claves[..j][..j - 1] == claves[..j - 1];
  }

  lemma MarcarEnIndice(actual: seq<SugeridoLinea>, ps: seq<nat>, i: nat)
    requires i < |actual|
    ensures MarcarEn(actual, ps)[i] == if i in ps then Ordenada(actual[i]) else actual[i]
  {
  }

  /**
   * Every order carries exactly the included lines of its key, in their
   * order, and its total is the sum of their costs; the keys are all those
   * of the included lines, once each, and one order is counted per key.
   */
  lemma OrdenesGeneradas(lote: SugeridoLote, lineas: seq<SugeridoLinea>, envios: seq<Envio>, j: nat)
    requires |Claves(lineas)| <= |envios| && j < |Claves(lineas)|
    ensures var g := Generacion(lote, lineas, envios);
            var k := Claves(lineas)[j];
            |g.ordenes| == g.generadas == |Claves(lineas)|
            && g.ordenes[j].proveedor == k.proveedor && g.ordenes[j].codAlmacen == k.codAlmacen
            && g.ordenes[j].nombreAlmacen == k.nombreAlmacen
            && g.ordenes[j].lineas == FilasDe(lineas, k)
            && g.ordenes[j].costoTotal == Suma(g.ordenes[j].lineas)
            && g.ordenes[j].idOrdenIcg == (if envios[j].exito then envios[j].idOrdenIcg else None)
            && g.lote.estado == COMPLETADO
  {
    OrdenesHastaEn(lote.id, lineas, Claves(lineas), envios, |Claves(lineas)|, j);
  }

  lemma {:induction false} OrdenesHastaEn(lote: int, lineas: seq<SugeridoLinea>, claves: seq<ClaveOrden>, envios: seq<Envio>,
                                          n: nat, j: nat)
    requires j < n <= |claves| && n <= |envios|
    ensures OrdenesHasta(lote, lineas, claves, envios, n)[j]
            == OrdenDe(lote, claves[j], FilasDe(lineas, claves[j]), envios[j])
  {
    if j < n - 1 {
      OrdenesHastaEn(lote, lineas, claves, envios, n - 1, j);
    }
  }

  /** The cost of the included lines of key `k`. */
  function CostoGrupo(lineas: seq<SugeridoLinea>, k: ClaveOrden): real
  {
    if lineas == [] then 0.0
    else
      var n := |lineas| - 1;
      CostoGrupo(lineas[..n], k) + (if Incluida(lineas[n]) && ClaveDe(lineas[n]) == k then Costo(lineas[n]) else 0.0)
  }

  function CostoIncluidas(lineas: seq<SugeridoLinea>): real
  {
    if lineas == [] then 0.0
    else
      var n := |lineas| - 1;
      CostoIncluidas(lineas[..n]) + (if Incluida(lineas[n]) then Costo(lineas[n]) else 0.0)
  }

  function SumaClaves(lineas: seq<SugeridoLinea>, cs: seq<ClaveOrden>): real
  {
    if cs == [] then 0.0 else SumaClaves(lineas, cs[..|cs| - 1]) + CostoGrupo(lineas, cs[|cs| - 1])
  }

  /** The order totals add up to the cost of the included lines: grouping loses and duplicates nothing. */
  lemma TotalGeneracion(lote: SugeridoLote, lineas: seq<SugeridoLinea>, envios: seq<Envio>)
    requires |Claves(lineas)| <= |envios|
    ensures SumaOrdenes(Generacion(lote, lineas, envios).ordenes) == CostoIncluidas(lineas)
  {
    var claves := Claves(lineas);
    TotalesHasta(lote.id, lineas, claves, envios, |claves|);
    assert claves[..|claves|] == claves;
    SumaClavesTotal(lineas);
  }

  function SumaOrdenes(os: seq<Orden>): real
  {
    if os == [] then 0.0 else SumaOrdenes(os[..|os| - 1]) + os[|os| - 1].costoTotal
  }

  lemma {:induction false} TotalesHasta(lote: int, lineas: seq<SugeridoLinea>, claves: seq<ClaveOrden>, envios: seq<Envio>, j: nat)
    requires j <= |claves| && j <= |envios|
    ensures SumaOrdenes(OrdenesHasta(lote, lineas, claves, envios, j)) == SumaClaves(lineas, claves[..j])
  {
    if j > 0 {
      TotalesHasta(lote, lineas, claves, envios, j - 1);
      var os := OrdenesHasta(lote, lineas, claves, envios, j);
      assert os[..j - 1] == OrdenesHasta(lote, lineas, claves, envios, j - 1);
      assert claves[..j][..j - 1] == claves[..j - 1];
      SumaGrupo(lineas, claves[j - 1]);
    }
  }

  /** An order's total is the cost of its group. */
  lemma {:induction false} SumaGrupo(lineas: seq<SugeridoLinea>, k: ClaveOrden)
    ensures Suma(FilasDe(lineas, k)) == CostoGrupo(lineas, k)
    decreases |lineas|
  {
    if lineas != [] {
      var n := |lineas| - 1;
      SumaGrupo(lineas[..n], k);
      FilasDeUltima(lineas, k);
      var antes := FilasDe(lineas[..n], k);
      if Incluida(lineas[n]) && ClaveDe(lineas[n]) == k {
        SumaMas(antes, LineaDe(lineas[n]));
      } else {
        assert antes + [] == antes;
      }
    }
  }

  /** The order lines of key `k` grow by the last line exactly when it is included under `k`. */
  lemma FilasDeUltima(lineas: seq<SugeridoLinea>, k: ClaveOrden)
    requires lineas != []
    ensures var n := |lineas| - 1;
            FilasDe(lineas, k)
            == FilasDe(lineas[..n], k) + (if Incluida(lineas[n]) && ClaveDe(lineas[n]) == k then [LineaDe(lineas[n])] else [])
  {
    var n := |lineas| - 1;
    var previas := lineas[..n];
    var qs := Posiciones(previas, k);
    PosicionesExactas(previas, k, 0);
    FilasPrefijo(lineas, n, qs);
    if Incluida(lineas[n]) && ClaveDe(lineas[n]) == k {
      assert Posiciones(lineas, k) == qs + [n];
      FilasMas(lineas, qs, n);
    } else {
      assert Posiciones(lineas, k) == qs;
    }
  }

  lemma FilasPrefijo(lineas: seq<SugeridoLinea>, n: nat, qs: seq<nat>)
    requires n <= |lineas| && DentroDe(qs, n)
    ensures Filas(lineas[..n], qs) == Filas(lineas, qs)
  {
  }

  lemma FilasMas(lineas: seq<SugeridoLinea>, qs: seq<nat>, p: nat)
    requires DentroDe(qs, |lineas|) && p < |lineas|
    ensures Filas(lineas, qs + [p]) == Filas(lineas, qs) + [LineaDe(lineas[p])]
  {
  }

  lemma SumaMas(filas: seq<LineaOrden>, f: LineaOrden)
    ensures Suma(filas + [f]) == Suma(filas) + f.costoTotal
  {
    assert (filas + [f])[..|filas|] == filas;
  }

  /** Summed over the keys of the included lines, the group costs give the cost of all included lines. */
  lemma {:induction false} SumaClavesTotal(lineas: seq<SugeridoLinea>)
    ensures SumaClaves(lineas, Claves(lineas)) == CostoIncluidas(lineas)
    decreases |lineas|
  {
    if lineas != [] {
      var n := |lineas| - 1;
      var previas := lineas[..n];
      var cs := Claves(previas);
      SumaClavesTotal(previas);
      ClavesDistintas(previas);
      SumaClavesPaso(lineas, cs);
      if Incluida(lineas[n]) && ClaveDe(lineas[n]) !in cs {
        ClaveNueva(lineas, cs);
      }
    }
  }

  lemma ClaveNueva(lineas: seq<SugeridoLinea>, cs: seq<ClaveOrden>)
    requires lineas != [] && cs == Claves(lineas[..|lineas| - 1])
    requires Incluida(lineas[|lineas| - 1]) && ClaveDe(lineas[|lineas| - 1]) !in cs
    ensures SumaClaves(lineas, cs + [ClaveDe(lineas[|lineas| - 1])])
            == SumaClaves(lineas, cs) + Costo(lineas[|lineas| - 1])
  {
    var n := |lineas| - 1;
    var k := ClaveDe(lineas[n]);
    PosicionesDeOtraCosto(lineas[..n], k);
    var ampliadas := cs + [k];
    assert ampliadas[..|ampliadas| - 1] == cs && ampliadas[|ampliadas| - 1] == k;
    assert SumaClaves(lineas, ampliadas) == SumaClaves(lineas, cs) + CostoGrupo(lineas, k);
    assert CostoGrupo(lineas, k) == CostoGrupo(lineas[..n], k) + Costo(lineas[n]);
  }

  /** Adding one line to the lines adds its cost to the sum over distinct keys when its key is one of them. */
  lemma {:induction false} SumaClavesPaso(lineas: seq<SugeridoLinea>, cs: seq<ClaveOrden>)
    requires lineas != [] && Distintas(cs)
    ensures var n := |lineas| - 1;
            SumaClaves(lineas, cs)
            == SumaClaves(lineas[..n], cs) + (if Incluida(lineas[n]) && ClaveDe(lineas[n]) in cs then Costo(lineas[n]) else 0.0)
    decreases |cs|
  {
    if cs != [] {
      var m := |cs| - 1;
      assert Distintas(cs[..m]);
      SumaClavesPaso(lineas, cs[..m]);
      assert cs == cs[..m] + [cs[m]];
      var n := |lineas| - 1;
      if ClaveDe(lineas[n]) in cs[..m] {
        assert ClaveDe(lineas[n]) != cs[m];
      }
    }
  }

  lemma {:induction false} PosicionesDeOtraCosto(lineas: seq<SugeridoLinea>, k: ClaveOrden)
    requires k !in Claves(lineas)
    ensures CostoGrupo(lineas, k) == 0.0
    decreases |lineas|
  {
    if lineas != [] {
      PosicionesDeOtraCosto(lineas[..|lineas| - 1], k);
    }
  }

  // ------------------------------------------------------------ The loops

  /** `grupos.setdefault(key, []).append(ln)` over the lot's lines. */
  method AgruparLineas(lineas: seq<SugeridoLinea>) returns (claves: seq<ClaveOrden>, grupos: map<ClaveOrden, seq<nat>>)
    ensures claves == Claves(lineas)
    ensures forall k :: k in grupos <==> k in claves
    ensures forall k :: k in grupos ==> grupos[k] == Posiciones(lineas, k)
  {
    claves, grupos := [], map[];
    var i := 0;
    while i < |lineas|
      invariant 0 <= i <= |lineas|
      invariant claves == Claves(lineas[..i])
      invariant forall k :: k in grupos <==> k in claves
      invariant forall k :: k in grupos ==> grupos[k] == Posiciones(lineas[..i], k)
    {
      var ln := lineas[i];
      assert lineas[..i + 1][..i] == lineas[..i];
      if Incluida(ln) {
        var k := ClaveDe(ln);
        if k in grupos {
          grupos := grupos[k := grupos[k] + [i]];
        } else {
          PosicionesDeOtra(lineas[..i], k);
          grupos := grupos[k := [i]];
          claves := claves + [k];
        }
      }
      i := i + 1;
    }
    assert lineas[..|lineas|] == lineas;
  }

  /** One order: its lines written one by one, the total accumulated, each line marked ORDENADA. */
  method EscribirOrden(lote: int, k: ClaveOrden, lineas: seq<SugeridoLinea>, ps: seq<nat>, actual: seq<SugeridoLinea>, e: Envio)
    returns (o: Orden, reg: Registro, marcadas: seq<SugeridoLinea>)
    requires DentroDe(ps, |lineas|)
    requires |actual| == |lineas|
    ensures o == OrdenDe(lote, k, Filas(lineas, ps), e)
    ensures reg == Registro(e.exito, e.idOrdenIcg, e.mensaje)
    ensures marcadas == MarcarEn(actual, ps)
  {
    var filas: seq<LineaOrden> := [];
    var total := 0.0;
    marcadas := actual;
    var j := 0;
    while j < |ps|
      invariant 0 <= j <= |ps|
      invariant filas == Filas(lineas, ps[..j]) && total == Suma(filas)
      invariant marcadas == MarcarEn(actual, ps[..j])
    {
      var p := ps[j];
      var f := LineaDe(lineas[p]);
      assert (filas + [f])[..|filas|] == filas;
      filas := filas + [f];
      total := total + f.costoTotal;
      marcadas := marcadas[p := Ordenada(marcadas[p])];
      MarcarUnaMas(actual, ps, j);
      j := j + 1;
    }
    assert ps[..|ps|] == ps;
    o := Orden(lote, k.proveedor, k.codAlmacen, k.nombreAlmacen, filas, total, if e.exito then e.idOrdenIcg else None);
    reg := Registro(e.exito, e.idOrdenIcg, e.mensaje);
  }

  lemma MarcarUnaMas(actual: seq<SugeridoLinea>, ps: seq<nat>, j: nat)
    requires j < |ps| && ps[j] < |actual|
    ensures MarcarEn(actual, ps[..j + 1]) == MarcarEn(actual, ps[..j])[ps[j] := Ordenada(MarcarEn(actual, ps[..j])[ps[j]])]
  {
    assert ps[..j + 1] == ps[..j] + [ps[j]];
    var a := MarcarEn(actual, ps[..j + 1]);
    var b := MarcarEn(actual, ps[..j])[ps[j] := Ordenada(MarcarEn(actual, ps[..j])[ps[j]])];
    forall i | 0 <= i < |actual| ensures a[i] == b[i] {
      if i == ps[j] && i in ps[..j] {
        assert Ordenada(Ordenada(actual[i])) == Ordenada(actual[i]);
      }
    }
  }

  /** The generation for one lot, as both copies write it. */
  method GenerarOrdenes(lote: SugeridoLote, lineas: seq<SugeridoLinea>, envios: seq<Envio>) returns (g: Generado)
    requires |Claves(lineas)| <= |envios|
    ensures g == Generacion(lote, lineas, envios)
  {
    var claves, grupos := AgruparLineas(lineas);
    PosicionesEnRango(lineas);
    assert forall k :: k in grupos ==> FilasDe(lineas, k) == Filas(lineas, grupos[k]);
    var ordenes: seq<Orden> := [];
    var registros: seq<Registro> := [];
    var actual := lineas;
    var generadas := 0;
    var j := 0;
    while j < |claves|
      invariant 0 <= j <= |claves| && generadas == j
      invariant ordenes == OrdenesHasta(lote.id, lineas, claves, envios, j)
      invariant registros == RegistrosHasta(envios, j)
      invariant actual == LineasHasta(lineas, claves, j)
    {
      var k := claves[j];
      var o, reg, marcadas := EscribirOrden(lote.id, k, lineas, grupos[k], actual, envios[j]);
      ordenes := ordenes + [o];
      registros := registros + [reg];
      actual := marcadas;
      generadas := generadas + 1;
      j := j + 1;
    }
    g := Generado(ordenes, registros, actual, lote.(estado := COMPLETADO), generadas);
  }

  // ------------------------------------------------------------ The two entry points

  /** A lot with its lines and the ICG answers for its orders. */
  datatype Pedido = Pedido(lote: SugeridoLote, lineas: seq<SugeridoLinea>, envios: seq<Envio>)

  predicate EnviosSuficientes(ps: seq<Pedido>)
  {
    forall i :: 0 <= i < |ps| ==> |Claves(ps[i].lineas)| <= |ps[i].envios|
  }

  function Generaciones(ps: seq<Pedido>): (r: seq<Generado>)
    requires EnviosSuficientes(ps)
    ensures |r| == |ps|
  {
    if ps == [] then []
    else
      var n := |ps| - 1;
      Generaciones(ps[..n]) + [Generacion(ps[n].lote, ps[n].lineas, ps[n].envios)]
  }

  function TotalGeneradas(gs: seq<Generado>): nat
  {
    if gs == [] then 0 else TotalGeneradas(gs[..|gs| - 1]) + gs[|gs| - 1].generadas
  }

  function MensajeAccion(n: nat): string
  {
    NatATexto(n) + " orden(es) de compra generadas."
  }

  /** `accion_generar_orden_compra` over the selected lots, one after the other. */
  method AccionGenerarOrdenCompra(ps: seq<Pedido>) returns (gs: seq<Generado>, mensaje: string)
    requires EnviosSuficientes(ps)
    ensures gs == Generaciones(ps)
    ensures mensaje == MensajeAccion(TotalGeneradas(Generaciones(ps)))
  {
    gs := [];
    var total := 0;
    var i := 0;
    while i < |ps|
      invariant 0 <= i <= |ps|
      invariant gs == Generaciones(ps[..i]) && total == TotalGeneradas(gs)
    {
      var g := GenerarOrdenes(ps[i].lote, ps[i].lineas, ps[i].envios);
      GeneracionesUnaMas(ps, i);
      gs := gs + [g];
      total := total + g.generadas;
      i := i + 1;
    }
    assert ps[..|ps|] == ps;
    mensaje := MensajeAccion(total);
  }

  /** One more lot appends its generation and adds its orders to the count. */
  lemma GeneracionesUnaMas(ps: seq<Pedido>, i: nat)
    requires i < |ps| && EnviosSuficientes(ps)
    ensures EnviosSuficientes(ps[..i]) && EnviosSuficientes(ps[..i + 1])
    ensures var g := Generacion(ps[i].lote, ps[i].lineas, ps[i].envios);
            Generaciones(ps[..i + 1]) == Generaciones(ps[..i]) + [g]
            && TotalGeneradas(Generaciones(ps[..i]) + [g]) == TotalGeneradas(Generaciones(ps[..i])) + g.generadas
  {
    assert ps[..i + 1][..i] == ps[..i];
    var g := Generacion(ps[i].lote, ps[i].lineas, ps[i].envios);
    var gs := Generaciones(ps[..i]);
    assert (gs + [g])[..|gs|] == gs;
  }

  /** The selected lots' order counts add up in the message. */
  lemma {:induction false} TotalGeneradasSuma(ps: seq<Pedido>)
    requires EnviosSuficientes(ps)
    ensures TotalGeneradas(Generaciones(ps)) == SumaClavesLotes(ps)
    decreases |ps|
  {
    if ps != [] {
      var n := |ps| - 1;
      assert EnviosSuficientes(ps[..n]);
      TotalGeneradasSuma(ps[..n]);
      assert Generaciones(ps)[..n] == Generaciones(ps[..n]);
    }
  }

  /** The number of distinct keys over the lots. */
  function SumaClavesLotes(ps: seq<Pedido>): nat
  {
    if ps == [] then 0 else SumaClavesLotes(ps[..|ps| - 1]) + |Claves(ps[|ps| - 1].lineas)|
  }

  datatype Importacion =
    | LoteNoEncontrado
    | SoloInternos
    | Importada(g: Generado, mensaje: string)

  /**
   * `importar_a_icg` of `Compras/admin.py`: the lot must exist, a user with a
   * supplier profile is refused, and otherwise the generation runs as in the
   * lot action.
   */
  function ImportarAIcg(lotes: map<int, SugeridoLote>, loteId: int, tienePerfil: bool,
                        lineas: seq<SugeridoLinea>, envios: seq<Envio>): (r: Importacion)
    requires |Claves(lineas)| <= |envios|
  {
    if loteId !in lotes then LoteNoEncontrado
    else if tienePerfil then SoloInternos
    else
      var g := Generacion(lotes[loteId], lineas, envios);
      Importada(g, NatATexto(g.generadas) + " orden(es) generadas e importadas a ICG.")
  }

  /** A supplier never generates orders, and an internal user does exactly what the lot action does. */
  lemma ImportarComoAccion(lotes: map<int, SugeridoLote>, loteId: int, tienePerfil: bool,
                           lineas: seq<SugeridoLinea>, envios: seq<Envio>)
    requires |Claves(lineas)| <= |envios|
    ensures ImportarAIcg(lotes, loteId, tienePerfil, lineas, envios).Importada?
            <==> loteId in lotes && !tienePerfil
    ensures ImportarAIcg(lotes, loteId, tienePerfil, lineas, envios).Importada? ==>
              ImportarAIcg(lotes, loteId, tienePerfil, lineas, envios).g
              == Generaciones([Pedido(lotes[loteId], lineas, envios)])[0]
  {
  }

  // ------------------------------------------------------------ As written: the order number

  /**
   * Both copies build the order number from `prov[:8]`, where `prov` is the
   * line's supplier: a model instance or `None`, and neither can be sliced.
   * The first group therefore raises `TypeError` inside the transaction,
   * before any order is created, and the transaction writes nothing. Only a
   * lot without an included line gets through, COMPLETADO with no order.
   * `Generacion` is the evidently intended behaviour, which the rest of the
   * model uses.
   */
  function GeneracionEscrita(lote: SugeridoLote, lineas: seq<SugeridoLinea>, envios: seq<Envio>): (r: Result<Generado>)
    requires |Claves(lineas)| <= |envios|
  {
    if Claves(lineas) == [] then Ok(Generacion(lote, lineas, envios)) else Err("TypeError")
  }

  /**
   * As written, a lot fails exactly when one of its lines is included, and a
   * lot that gets through has no order and keeps its lines as they were.
   */
  lemma GeneracionEscritaFalla(lote: SugeridoLote, lineas: seq<SugeridoLinea>, envios: seq<Envio>)
    requires |Claves(lineas)| <= |envios|
    ensures GeneracionEscrita(lote, lineas, envios).Err?
            <==> exists i :: 0 <= i < |lineas| && Incluida(lineas[i])
    ensures GeneracionEscrita(lote, lineas, envios).Ok? ==>
              var g := GeneracionEscrita(lote, lineas, envios).value;
              g.ordenes == [] && g.generadas == 0 && g.lineas == lineas && g.lote.estado == COMPLETADO
  {
    var claves := Claves(lineas);
    if i :| 0 <= i < |lineas| && Incluida(lineas[i]) {
      ClaveListada(lineas, i);
    }
    if claves != [] {
      ClavesExactas(lineas, claves[0]);
    }
  }

  /**
   * A lot whose one line is included: the intended generation writes one
   * order, the program as written raises instead.
   */
  lemma NumeroOrdenFalla(lote: SugeridoLote, ln: SugeridoLinea, envios: seq<Envio>)
    requires Incluida(ln) && |envios| >= 1
    ensures |Claves([ln])| == 1
    ensures Generacion(lote, [ln], envios).generadas == 1
    ensures |Generacion(lote, [ln], envios).ordenes| == 1
    ensures GeneracionEscrita(lote, [ln], envios) == Err("TypeError")
  {
    assert [ln][..0] == [];
  }
}

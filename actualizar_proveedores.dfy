/**
 * `actualizar_proveedores_desde_icg` (`Compras/services/Actualizar_proveedores.py`):
 * the supplier/brand rows read from ICG are reconciled with the stored
 * suppliers and brands, and every internal seller is assigned the new
 * supplier/brand pairs they do not have yet.
 *
 * The connection, the query result, the stored suppliers (by name), brands,
 * sellers and assignments are inputs. Sets are iterated in an order the
 * model leaves open: the loops over them pick any remaining element.
 */
module ActualizarProveedores {
  import opened Resultados
  import opened Textos

  /** One row of the query: the cells as `str()` gives them; a NULL brand is `None`. */
  datatype Celdas = Celdas(codProveedor: string, proveedor: string, marca: Option<string>)

  /** A row as the loops read it: code and supplier stripped; the brand stripped when the cell is not empty. */
  datatype Fila = Fila(codigo: string, nombre: string, marca: Option<string>)

  function Leer(c: Celdas): (f: Fila)
    ensures f.codigo == Strip(c.codProveedor) && f.nombre == Strip(c.proveedor)
    ensures f.marca.Some? <==> c.marca.Some? && c.marca.value != ""
    ensures f.marca.Some? ==> f.marca.value == Strip(c.marca.value)
  {
    Fila(Strip(c.codProveedor), Strip(c.proveedor),
         if c.marca.Some? && c.marca.value != "" then Some(Strip(c.marca.value)) else None)
  }

  function Leidas(cs: seq<Celdas>): (fs: seq<Fila>)
    ensures |fs| == |cs| && forall i :: 0 <= i < |cs| ==> fs[i] == Leer(cs[i])
  {
    seq(|cs|, i requires 0 <= i < |cs| => Leer(cs[i]))
  }

  function NombreProveedor(f: Fila): string
  {
    f.nombre
  }

  function CodigoProveedor(f: Fila): string
  {
    f.codigo
  }

  /** The brand, when the row has a non-empty one. */
  function NombreMarca(f: Fila): (r: Option<string>)
    ensures r.Some? ==> r.value != ""
  {
    if f.marca.Some? && f.marca.value != "" then f.marca else None
  }

  /** A stored `Proveedor`: only `cod_icg` is touched here. */
  datatype ProveedorIcg = ProveedorIcg(codIcg: Option<string>, nit: string, emailContacto: string, activo: bool)

  function ProveedorNuevo(cod: string): ProveedorIcg
  {
    ProveedorIcg(Some(cod), "", "", true)
  }

  // ------------------------------------------------------------ The row loop

  /** The supplier half of the row loop: the stored suppliers, the names seen, those created, and the counters. */
  datatype EstadoProveedores = EstadoProveedores(
    proveedores: map<string, ProveedorIcg>, vistos: set<string>, nuevos: set<string>, creados: nat, actualizados: nat)

  /** The brand half of the row loop: the stored brands, the names seen, those created, and the counter. */
  datatype EstadoMarcas = EstadoMarcas(marcas: set<string>, vistas: set<string>, nuevas: set<string>, creadas: nat)

  /** The supplier of one row is handled only the first time its name appears. */
  function PasoProveedor(e: EstadoProveedores, f: Fila): EstadoProveedores
  {
    var n := NombreProveedor(f);
    var cod := CodigoProveedor(f);
    if n == "" || n in e.vistos then e
    else if n in e.proveedores then
      if e.proveedores[n].codIcg != Some(cod) then
        EstadoProveedores(e.proveedores[n := e.proveedores[n].(codIcg := Some(cod))], e.vistos + {n}, e.nuevos,
                          e.creados, e.actualizados + 1)
      else e.(vistos := e.vistos + {n})
    else
      EstadoProveedores(e.proveedores[n := ProveedorNuevo(cod)], e.vistos + {n}, e.nuevos + {n}, e.creados + 1, e.actualizados)
  }

  /** The brand of one row is handled only the first time it appears, and created only if absent. */
  function PasoMarca(e: EstadoMarcas, f: Fila): EstadoMarcas
  {
    var m := NombreMarca(f);
    if m.None? || m.value in e.vistas then e
    else if m.value in e.marcas then e.(vistas := e.vistas + {m.value})
    else EstadoMarcas(e.marcas + {m.value}, e.vistas + {m.value}, e.nuevas + {m.value}, e.creadas + 1)
  }

  function RecorrerProveedores(filas: seq<Fila>, proveedores: map<string, ProveedorIcg>): EstadoProveedores
  {
    if filas == [] then EstadoProveedores(proveedores, {}, {}, 0, 0)
    else PasoProveedor(RecorrerProveedores(filas[..|filas| - 1], proveedores), filas[|filas| - 1])
  }

  function RecorrerMarcas(filas: seq<Fila>, marcas: set<string>): EstadoMarcas
  {
    if filas == [] then EstadoMarcas(marcas, {}, {}, 0)
    else PasoMarca(RecorrerMarcas(filas[..|filas| - 1], marcas), filas[|filas| - 1])
  }

  /** The non-empty supplier names of the rows. */
  function Nombres(filas: seq<Fila>): set<string>
  {
    if filas == [] then {}
    else Nombres(filas[..|filas| - 1]) + (if NombreProveedor(filas[|filas| - 1]) != "" then {NombreProveedor(filas[|filas| - 1])} else {})
  }

  /** The brand names of the rows. */
  function MarcasDe(filas: seq<Fila>): set<string>
  {
    if filas == [] then {}
    else
      var m := NombreMarca(filas[|filas| - 1]);
      MarcasDe(filas[..|filas| - 1]) + (if m.Some? then {m.value} else {})
  }

  /** The code on the first row that names supplier `n`. */
  function PrimerCodigo(filas: seq<Fila>, n: string): string
    requires n in Nombres(filas)
  {
    var previas := filas[..|filas| - 1];
    if n in Nombres(previas) then PrimerCodigo(previas, n) else CodigoProveedor(filas[|filas| - 1])
  }

  /** The stored suppliers whose code the first row naming them changes. */
  function CodigoNuevo(filas: seq<Fila>, proveedores: map<string, ProveedorIcg>): set<string>
  {
    set n | n in Nombres(filas) && n in proveedores && proveedores[n].codIcg != Some(PrimerCodigo(filas, n))
  }

  /** A name of the earlier rows keeps its first code when a row is added. */
  lemma PrimerCodigoPrevio(filas: seq<Fila>, n: string)
    requires filas != [] && n in Nombres(filas[..|filas| - 1])
    ensures n in Nombres(filas) && PrimerCodigo(filas, n) == PrimerCodigo(filas[..|filas| - 1], n)
  {
  }

  /** What one row does to the names seen and created. */
  lemma PasoProveedorConjuntos(e: EstadoProveedores, f: Fila)
    ensures var n := NombreProveedor(f);
            var e2 := PasoProveedor(e, f);
            var nuevo := n != "" && n !in e.vistos;
            e2.vistos == e.vistos + (if n != "" then {n} else {})
            && e2.nuevos == e.nuevos + (if nuevo && n !in e.proveedores then {n} else {})
            && e2.creados == e.creados + (if nuevo && n !in e.proveedores then 1 else 0)
            && e2.proveedores.Keys == e.proveedores.Keys + (if nuevo then {n} else {})
  {
  }

  /** The supplier half of the loop sees every named supplier of the rows and stores each. */
  lemma {:induction false} ProveedoresVistos(filas: seq<Fila>, proveedores: map<string, ProveedorIcg>)
    ensures var e := RecorrerProveedores(filas, proveedores);
            e.vistos == Nombres(filas) && e.proveedores.Keys == proveedores.Keys + Nombres(filas)
    decreases |filas|
  {
    if filas != [] {
      var k := |filas| - 1;
      ProveedoresVistos(filas[..k], proveedores);
      PasoProveedorConjuntos(RecorrerProveedores(filas[..k], proveedores), filas[k]);
    }
  }

  /** One row keeps the creations equal to the new names seen, and their count. */
  lemma PasoCreados(e: EstadoProveedores, f: Fila, nombres: set<string>, claves: set<string>)
    requires e.vistos == nombres && e.proveedores.Keys == claves + nombres
    requires e.nuevos == nombres - claves && e.creados == |e.nuevos|
    ensures var n := NombreProveedor(f);
            var e2 := PasoProveedor(e, f);
            var nombres2 := nombres + (if n != "" then {n} else {});
            e2.nuevos == nombres2 - claves && e2.creados == |e2.nuevos|
  {
    var n := NombreProveedor(f);
    PasoProveedorConjuntos(e, f);
    if n != "" {
      if n in nombres || n in claves {
        NombreConocido(nombres, claves, n);
      } else {
        NombreCreado(nombres, claves, n);
      }
    }
  }

  lemma NombreConocido(nombres: set<string>, claves: set<string>, n: string)
    requires n in nombres || n in claves
    ensures (nombres + {n}) - claves == nombres - claves
  {
  }

  lemma NombreCreado(nombres: set<string>, claves: set<string>, n: string)
    requires n !in nombres && n !in claves
    ensures (nombres + {n}) - claves == (nombres - claves) + {n}
    ensures |(nombres - claves) + {n}| == |nombres - claves| + 1
  {
  }

  /** It creates exactly the suppliers not stored yet, and counts them. */
  lemma {:induction false} ProveedoresCreados(filas: seq<Fila>, proveedores: map<string, ProveedorIcg>)
    ensures var e := RecorrerProveedores(filas, proveedores);
            e.nuevos == Nombres(filas) - proveedores.Keys && e.creados == |e.nuevos|
    decreases |filas|
  {
    if filas != [] {
      var k := |filas| - 1;
      var previas := filas[..k];
      ProveedoresCreados(previas, proveedores);
      ProveedoresVistos(previas, proveedores);
      PasoCreados(RecorrerProveedores(previas, proveedores), filas[k], Nombres(previas), proveedores.Keys);
    }
  }

  /** What the supplier loop leaves for each name, given the rows so far and the suppliers stored before. */
  predicate ValoresDe(e: EstadoProveedores, filas: seq<Fila>, proveedores: map<string, ProveedorIcg>)
  {
    e.proveedores.Keys == proveedores.Keys + Nombres(filas)
    && SinNombrar(e, filas, proveedores) && CreadosDe(e, filas, proveedores) && RecodificadosDe(e, filas, proveedores)
  }

  predicate SinNombrar(e: EstadoProveedores, filas: seq<Fila>, proveedores: map<string, ProveedorIcg>)
    requires e.proveedores.Keys == proveedores.Keys + Nombres(filas)
  {
    forall n :: n in proveedores && n !in Nombres(filas) ==> e.proveedores[n] == proveedores[n]
  }

  predicate CreadosDe(e: EstadoProveedores, filas: seq<Fila>, proveedores: map<string, ProveedorIcg>)
    requires e.proveedores.Keys == proveedores.Keys + Nombres(filas)
  {
    forall n :: n in Nombres(filas) && n !in proveedores ==> e.proveedores[n] == ProveedorNuevo(PrimerCodigo(filas, n))
  }

  predicate RecodificadosDe(e: EstadoProveedores, filas: seq<Fila>, proveedores: map<string, ProveedorIcg>)
    requires e.proveedores.Keys == proveedores.Keys + Nombres(filas)
  {
    forall n :: n in Nombres(filas) && n in proveedores ==>
      e.proveedores[n] == proveedores[n].(codIcg := Some(PrimerCodigo(filas, n)))
  }

  lemma PasoSinNombrar(e: EstadoProveedores, filas: seq<Fila>, proveedores: map<string, ProveedorIcg>)
    requires filas != []
    requires e.vistos == Nombres(filas[..|filas| - 1]) && e.proveedores.Keys == proveedores.Keys + Nombres(filas[..|filas| - 1])
    requires SinNombrar(e, filas[..|filas| - 1], proveedores)
    ensures var e2 := PasoProveedor(e, filas[|filas| - 1]);
            e2.proveedores.Keys == proveedores.Keys + Nombres(filas) && SinNombrar(e2, filas, proveedores)
  {
    PasoProveedorConjuntos(e, filas[|filas| - 1]);
  }

  lemma PasoCreadosDe(e: EstadoProveedores, filas: seq<Fila>, proveedores: map<string, ProveedorIcg>)
    requires filas != []
    requires e.vistos == Nombres(filas[..|filas| - 1]) && e.proveedores.Keys == proveedores.Keys + Nombres(filas[..|filas| - 1])
    requires CreadosDe(e, filas[..|filas| - 1], proveedores)
    ensures var e2 := PasoProveedor(e, filas[|filas| - 1]);
            e2.proveedores.Keys == proveedores.Keys + Nombres(filas) && CreadosDe(e2, filas, proveedores)
  {
    var k := |filas| - 1;
    PasoProveedorConjuntos(e, filas[k]);
    forall x | x in Nombres(filas[..k]) ensures PrimerCodigo(filas, x) == PrimerCodigo(filas[..k], x) {
      PrimerCodigoPrevio(filas, x);
    }
  }

  lemma PasoRecodificados(e: EstadoProveedores, filas: seq<Fila>, proveedores: map<string, ProveedorIcg>)
    requires filas != []
    requires e.vistos == Nombres(filas[..|filas| - 1]) && e.proveedores.Keys == proveedores.Keys + Nombres(filas[..|filas| - 1])
    requires SinNombrar(e, filas[..|filas| - 1], proveedores) && RecodificadosDe(e, filas[..|filas| - 1], proveedores)
    ensures var e2 := PasoProveedor(e, filas[|filas| - 1]);
            e2.proveedores.Keys == proveedores.Keys + Nombres(filas) && RecodificadosDe(e2, filas, proveedores)
  {
    var k := |filas| - 1;
    var e2 := PasoProveedor(e, filas[k]);
    PasoProveedorConjuntos(e, filas[k]);
    forall m | m in Nombres(filas) && m in proveedores
      ensures e2.proveedores[m] == proveedores[m].(codIcg := Some(PrimerCodigo(filas, m)))
    {
      RecodificadoUno(e, filas, proveedores, m);
    }
  }

  /** One stored supplier after a row: recoded from its first row, whether that row is an earlier one or this one. */
  lemma RecodificadoUno(e: EstadoProveedores, filas: seq<Fila>, proveedores: map<string, ProveedorIcg>, m: string)
    requires filas != []
    requires e.vistos == Nombres(filas[..|filas| - 1]) && e.proveedores.Keys == proveedores.Keys + Nombres(filas[..|filas| - 1])
    requires m in Nombres(filas) && m in proveedores
    requires m in Nombres(filas[..|filas| - 1]) ==>
               e.proveedores[m] == proveedores[m].(codIcg := Some(PrimerCodigo(filas[..|filas| - 1], m)))
    requires m !in Nombres(filas[..|filas| - 1]) ==> e.proveedores[m] == proveedores[m]
    ensures PasoProveedor(e, filas[|filas| - 1]).proveedores[m] == proveedores[m].(codIcg := Some(PrimerCodigo(filas, m)))
  {
    if m in Nombres(filas[..|filas| - 1]) {
      PrimerCodigoPrevio(filas, m);
    }
  }

  /**
   * Each supplier is handled once, from the first row naming it: a stored
   * one takes that row's code, an unknown one is created with it, and the
   * suppliers the rows do not name stay as they were.
   */
  lemma {:induction false} ProveedoresEfecto(filas: seq<Fila>, proveedores: map<string, ProveedorIcg>)
    ensures ValoresDe(RecorrerProveedores(filas, proveedores), filas, proveedores)
    decreases |filas|
  {
    if filas != [] {
      var k := |filas| - 1;
      ProveedoresEfecto(filas[..k], proveedores);
      ProveedoresVistos(filas[..k], proveedores);
      var e0 := RecorrerProveedores(filas[..k], proveedores);
      PasoSinNombrar(e0, filas, proveedores);
      PasoCreadosDe(e0, filas, proveedores);
      PasoRecodificados(e0, filas, proveedores);
    }
  }

  /** The update counter is the number of stored suppliers whose code changed. */
  lemma {:induction false} ActualizadosCuenta(filas: seq<Fila>, proveedores: map<string, ProveedorIcg>)
    ensures RecorrerProveedores(filas, proveedores).actualizados == |CodigoNuevo(filas, proveedores)|
    decreases |filas|
  {
    if filas != [] {
      var k := |filas| - 1;
      var previas := filas[..k];
      ActualizadosCuenta(previas, proveedores);
      ProveedoresVistos(previas, proveedores);
      ProveedoresEfecto(previas, proveedores);
      var n := NombreProveedor(filas[k]);
      var e0 := RecorrerProveedores(previas, proveedores);
      if n != "" && n !in Nombres(previas) && n in proveedores {
        assert e0.proveedores[n] == proveedores[n];
      }
      CodigoNuevoPaso(filas, proveedores);
    }
  }

  /** Adding a row adds its supplier to the changed ones exactly when it is new to the rows, stored, and recoded. */
  lemma CodigoNuevoPaso(filas: seq<Fila>, proveedores: map<string, ProveedorIcg>)
    requires filas != []
    ensures var previas := filas[..|filas| - 1];
            var f := filas[|filas| - 1];
            var n := NombreProveedor(f);
            var cambia := n != "" && n !in Nombres(previas) && n in proveedores && proveedores[n].codIcg != Some(CodigoProveedor(f));
            CodigoNuevo(filas, proveedores) == CodigoNuevo(previas, proveedores) + (if cambia then {n} else {})
            && (cambia ==> n !in CodigoNuevo(previas, proveedores))
  {
    var previas := filas[..|filas| - 1];
    forall x | x in Nombres(previas) ensures PrimerCodigo(filas, x) == PrimerCodigo(previas, x) {
      PrimerCodigoPrevio(filas, x);
    }
  }

  /**
   * What the brand half of the loop leaves: the rows' brands are all stored,
   * the absent ones are created once each, and the counter counts them.
   */
  lemma {:induction false} MarcasEfecto(filas: seq<Fila>, marcas: set<string>)
    ensures var e := RecorrerMarcas(filas, marcas);
            e.vistas == MarcasDe(filas) && e.nuevas == MarcasDe(filas) - marcas
            && e.marcas == marcas + MarcasDe(filas) && e.creadas == |e.nuevas|
    decreases |filas|
  {
    if filas != [] {
      var k := |filas| - 1;
      MarcasEfecto(filas[..k], marcas);
      PasoMarcaEfecto(RecorrerMarcas(filas[..k], marcas), filas[k], MarcasDe(filas[..k]), marcas);
    }
  }

  /** One row keeps the brand state in step with the brands seen so far. */
  lemma PasoMarcaEfecto(e: EstadoMarcas, f: Fila, vistas: set<string>, marcas: set<string>)
    requires e.vistas == vistas && e.nuevas == vistas - marcas && e.marcas == marcas + vistas && e.creadas == |e.nuevas|
    ensures var m := NombreMarca(f);
            var v2 := vistas + (if m.Some? then {m.value} else {});
            var e2 := PasoMarca(e, f);
            e2.vistas == v2 && e2.nuevas == v2 - marcas && e2.marcas == marcas + v2 && e2.creadas == |e2.nuevas|
  {
    var m := NombreMarca(f);
    if m.Some? {
      var x := m.value;
      if x in vistas {
        MarcaVista(e, vistas, marcas, x);
      } else if x in e.marcas {
        MarcaGuardada(e, vistas, marcas, x);
      } else {
        MarcaCreada(e, vistas, marcas, x);
      }
    }
  }

  lemma MarcaVista(e: EstadoMarcas, vistas: set<string>, marcas: set<string>, x: string)
    requires e.vistas == vistas && e.nuevas == vistas - marcas && e.marcas == marcas + vistas
    requires x in vistas
    ensures vistas + {x} == vistas
  {
  }

  lemma MarcaGuardada(e: EstadoMarcas, vistas: set<string>, marcas: set<string>, x: string)
    requires e.vistas == vistas && e.nuevas == vistas - marcas && e.marcas == marcas + vistas
    requires x !in vistas && x in e.marcas
    ensures (vistas + {x}) - marcas == e.nuevas && marcas + (vistas + {x}) == e.marcas
  {
  }

  lemma MarcaCreada(e: EstadoMarcas, vistas: set<string>, marcas: set<string>, x: string)
    requires e.vistas == vistas && e.nuevas == vistas - marcas && e.marcas == marcas + vistas
    requires x !in vistas && x !in e.marcas
    ensures (vistas + {x}) - marcas == e.nuevas + {x} && marcas + (vistas + {x}) == e.marcas + {x}
    ensures |e.nuevas + {x}| == |e.nuevas| + 1
  {
  }

  /** The row loop, as the program writes it: both halves in one pass. */
  method RegistrarFilas(filas: seq<Fila>, proveedores0: map<string, ProveedorIcg>, marcas0: set<string>)
    returns (ep: EstadoProveedores, em: EstadoMarcas)
    ensures ep == RecorrerProveedores(filas, proveedores0)
    ensures em == RecorrerMarcas(filas, marcas0)
  {
    var proveedores, marcas := proveedores0, marcas0;
    var vistosProv, vistasMarcas: set<string> := {}, {};
    var nuevosProv, nuevasMarcas: set<string> := {}, {};
    var creados, actualizados, marcasCreadas := 0, 0, 0;
    var i := 0;
    while i < |filas|
      invariant 0 <= i <= |filas|
      invariant EstadoProveedores(proveedores, vistosProv, nuevosProv, creados, actualizados)
                == RecorrerProveedores(filas[..i], proveedores0)
      invariant EstadoMarcas(marcas, vistasMarcas, nuevasMarcas, marcasCreadas) == RecorrerMarcas(filas[..i], marcas0)
    {
      assert filas[..i + 1][..i] == filas[..i];
      var f := filas[i];
      var n := NombreProveedor(f);
      var cod := CodigoProveedor(f);
      if n != "" && n !in vistosProv {
        vistosProv := vistosProv + {n};
        if n in proveedores {
          if proveedores[n].codIcg != Some(cod) {
            proveedores := proveedores[n := proveedores[n].(codIcg := Some(cod))];
            actualizados := actualizados + 1;
          }
        } else {
          proveedores := proveedores[n := ProveedorNuevo(cod)];
          creados := creados + 1;
          nuevosProv := nuevosProv + {n};
        }
      }
      var m := NombreMarca(f);
      if m.Some? && m.value !in vistasMarcas {
        vistasMarcas := vistasMarcas + {m.value};
        if m.value !in marcas {
          marcas := marcas + {m.value};
          marcasCreadas := marcasCreadas + 1;
          nuevasMarcas := nuevasMarcas + {m.value};
        }
      }
      i := i + 1;
    }
    assert filas[..|filas|] == filas;
    ep := EstadoProveedores(proveedores, vistosProv, nuevosProv, creados, actualizados);
    em := EstadoMarcas(marcas, vistasMarcas, nuevasMarcas, marcasCreadas);
  }

  // ------------------------------------------------------------ Assignments

  /** The (supplier, brand) pairs of the rows that name both. */
  function RelacionesDe(filas: seq<Fila>): set<(string, string)>
  {
    if filas == [] then {}
    else
      var f := filas[|filas| - 1];
      var n := NombreProveedor(f);
      var m := NombreMarca(f);
      RelacionesDe(filas[..|filas| - 1]) + (if n != "" && m.Some? then {(n, m.value)} else {})
  }

  method Relaciones(filas: seq<Fila>) returns (rel: set<(string, string)>)
    ensures rel == RelacionesDe(filas)
  {
    rel := {};
    var i := 0;
    while i < |filas|
      invariant 0 <= i <= |filas| && rel == RelacionesDe(filas[..i])
    {
      assert filas[..i + 1][..i] == filas[..i];
      var n := NombreProveedor(filas[i]);
      var m := NombreMarca(filas[i]);
      if n != "" && m.Some? {
        rel := rel + {(n, m.value)};
      }
      i := i + 1;
    }
    assert filas[..|filas|] == filas;
  }

  /** Every pair names a supplier and a brand of the rows. */
  lemma {:induction false} RelacionesNombradas(filas: seq<Fila>)
    ensures forall r :: r in RelacionesDe(filas) ==> r.0 in Nombres(filas) && r.1 in MarcasDe(filas)
    decreases |filas|
  {
    if filas != [] {
      RelacionesNombradas(filas[..|filas| - 1]);
    }
  }

  /** An `AsignacionMarcaVendedor`, by supplier name, brand name and seller id. */
  type Asignacion = (string, string, int)

  /** The assignments one pair adds: every seller who does not have it yet. */
  function ParDe(p: string, m: string, vendedores: seq<int>, existentes: set<Asignacion>): set<Asignacion>
  {
    set v | v in vendedores && (p, m, v) !in existentes :: (p, m, v)
  }

  /**
   * The assignments to add: for each pair whose supplier and brand are
   * found, every seller who does not have it yet.
   */
  function Candidatas(rel: set<(string, string)>, proveedores: set<string>, marcas: set<string>,
                      vendedores: seq<int>, existentes: set<Asignacion>): set<Asignacion>
  {
    set r, v | r in rel && r.0 in proveedores && r.1 in marcas && v in vendedores && (r.0, r.1, v) !in existentes
      :: (r.0, r.1, v)
  }

  predicate Distintas<T(==)>(s: seq<T>)
  {
    forall i, j :: 0 <= i < j < |s| ==> s[i] != s[j]
  }

  function Elementos<T>(s: seq<T>): set<T>
  {
    set x | x in s
  }

  lemma {:induction false} DistintasCardinal<T>(s: seq<T>)
    requires Distintas(s)
    ensures |Elementos(s)| == |s|
    decreases |s|
  {
    if s != [] {
      var k := |s| - 1;
      assert Distintas(s[..k]);
      DistintasCardinal(s[..k]);
      assert Elementos(s) == Elementos(s[..k]) + {s[k]};
      assert s[k] !in Elementos(s[..k]);
    }
  }

  lemma ElementosMas<T>(s: seq<T>, x: T)
    ensures Elementos(s + [x]) == Elementos(s) + {x}
  {
    assert forall y :: y in s + [x] <==> y in s || y == x;
  }

  /** The inner loop: the sellers of one pair, in the order the query lists them. */
  method AsignarPar(p: string, m: string, vendedores: seq<int>, existentes: set<Asignacion>, nuevas0: seq<Asignacion>)
    returns (nuevas: seq<Asignacion>)
    ensures forall a :: a in nuevas ==> a in nuevas0 || (a.0, a.1) == (p, m)
    ensures Elementos(nuevas) == Elementos(nuevas0) + ParDe(p, m, vendedores, existentes)
    ensures Distintas(nuevas0) && Distintas(vendedores) && (forall a :: a in nuevas0 ==> (a.0, a.1) != (p, m))
            ==> Distintas(nuevas)
  {
    nuevas := nuevas0;
    var limpio := Distintas(nuevas0) && Distintas(vendedores) && (forall a :: a in nuevas0 ==> (a.0, a.1) != (p, m));
    for i := 0 to |vendedores|
      invariant forall a :: a in nuevas ==> a in nuevas0 || ((a.0, a.1) == (p, m) && a.2 in vendedores[..i])
      invariant Elementos(nuevas) == Elementos(nuevas0) + ParDe(p, m, vendedores[..i], existentes)
      invariant limpio ==> Distintas(nuevas)
    {
      var v := vendedores[i];
      assert vendedores[..i + 1] == vendedores[..i] + [v];
      assert ParDe(p, m, vendedores[..i + 1], existentes)
             == ParDe(p, m, vendedores[..i], existentes) + (if (p, m, v) !in existentes then {(p, m, v)} else {});
      if (p, m, v) !in existentes {
        if limpio {
          assert v !in vendedores[..i];
          assert (p, m, v) !in nuevas;
        }
        ElementosMas(nuevas, (p, m, v));
        nuevas := nuevas + [(p, m, v)];
      }
    }
    assert vendedores[..|vendedores|] == vendedores;
  }

  /** The pair loop: suppliers and brands are looked up, and a pair missing either is skipped. */
  method CrearAsignaciones(rel: set<(string, string)>, proveedores: set<string>, marcas: set<string>,
                           vendedores: seq<int>, existentes: set<Asignacion>)
    returns (nuevas: seq<Asignacion>)
    ensures Elementos(nuevas) == Candidatas(rel, proveedores, marcas, vendedores, existentes)
    ensures Distintas(vendedores) ==> |nuevas| == |Candidatas(rel, proveedores, marcas, vendedores, existentes)|
  {
    nuevas := [];
    var pendientes := rel;
    while pendientes != {}
      invariant pendientes <= rel
      invariant Distintas(vendedores) ==> Distintas(nuevas)
      invariant forall a :: a in nuevas ==> (a.0, a.1) in rel - pendientes
      invariant Elementos(nuevas) == Candidatas(rel - pendientes, proveedores, marcas, vendedores, existentes)
      decreases |pendientes|
    {
      var r :| r in pendientes;
      var hechas := rel - pendientes;
      nuevas := AsignarRelacion(hechas, r, proveedores, marcas, vendedores, existentes, nuevas);
      pendientes := pendientes - {r};
      assert rel - pendientes == hechas + {r};
    }
    assert rel - pendientes == rel;
    if Distintas(vendedores) {
      DistintasCardinal(nuevas);
    }
  }

  /** One pair of the relation: its assignments are added when both its supplier and its brand exist. */
  method AsignarRelacion(hechas: set<(string, string)>, r: (string, string), proveedores: set<string>, marcas: set<string>,
                         vendedores: seq<int>, existentes: set<Asignacion>, nuevas0: seq<Asignacion>)
    returns (nuevas: seq<Asignacion>)
    requires r !in hechas
    requires Distintas(vendedores) ==> Distintas(nuevas0)
    requires forall a :: a in nuevas0 ==> (a.0, a.1) in hechas
    requires Elementos(nuevas0) == Candidatas(hechas, proveedores, marcas, vendedores, existentes)
    ensures Distintas(vendedores) ==> Distintas(nuevas)
    ensures forall a :: a in nuevas ==> (a.0, a.1) in hechas + {r}
    ensures Elementos(nuevas) == Candidatas(hechas + {r}, proveedores, marcas, vendedores, existentes)
  {
    nuevas := nuevas0;
    CandidatasMas(hechas, r, proveedores, marcas, vendedores, existentes);
    if r.0 in proveedores && r.1 in marcas {
      nuevas := AsignarPar(r.0, r.1, vendedores, existentes, nuevas);
    }
  }

  lemma CandidatasMas(hechas: set<(string, string)>, r: (string, string), proveedores: set<string>, marcas: set<string>,
                      vendedores: seq<int>, existentes: set<Asignacion>)
    ensures Candidatas(hechas + {r}, proveedores, marcas, vendedores, existentes)
            == Candidatas(hechas, proveedores, marcas, vendedores, existentes)
               + (if r.0 in proveedores && r.1 in marcas then ParDe(r.0, r.1, vendedores, existentes) else {})
  {
  }

  /**
   * Every pair of the rows names a supplier and a brand that exist once the
   * rows are processed, so no pair is skipped: the new assignments are every
   * pair of the rows with every seller, as far as not already assigned.
   */
  lemma ParesResueltos(filas: seq<Fila>, proveedores: map<string, ProveedorIcg>, marcas: set<string>,
                       vendedores: seq<int>, existentes: set<Asignacion>)
    ensures Candidatas(RelacionesDe(filas), RecorrerProveedores(filas, proveedores).proveedores.Keys,
                       RecorrerMarcas(filas, marcas).marcas, vendedores, existentes)
            == Candidatas(RelacionesDe(filas), Nombres(filas), MarcasDe(filas), vendedores, existentes)
  {
    ProveedoresVistos(filas, proveedores);
    MarcasEfecto(filas, marcas);
    RelacionesNombradas(filas);
  }

  // ------------------------------------------------------------ The whole call

  /** What `conectar_sql_server` returns: nothing, an error text, or a connection. */
  datatype Conexion = SinConexion | ErrorConexion(detalle: string) | Conectada

  datatype Informe =
    | Fallido(mensaje: string)
    | Completado(mensaje: string, proveedoresCreados: nat, proveedoresActualizados: nat, marcasCreadas: nat,
                 asignacionesCreadas: nat, proveedores: map<string, ProveedorIcg>, marcas: set<string>,
                 asignaciones: seq<Asignacion>)

  function MensajeInforme(creados: nat, actualizados: nat, marcas: nat, asignaciones: nat): string
  {
    "Proveedores: " + NatATexto(creados) + " creados, " + NatATexto(actualizados) + " actualizados. "
    + "Marcas: " + NatATexto(marcas) + " creadas. "
    + "Asignaciones marca-vendedor: " + NatATexto(asignaciones) + " creadas."
  }

  /** Assignments are considered only with sellers and something new. */
  predicate HayQueAsignar(ep: EstadoProveedores, em: EstadoMarcas, vendedores: seq<int>)
  {
    vendedores != [] && (ep.nuevos != {} || em.nuevas != {})
  }

  /**
   * `actualizar_proveedores_desde_icg`: the connection and data failures,
   * then the row loop, then, when it applies, the assignment loop; the
   * counters reported are those of the loops.
   */
  method ActualizarProveedoresDesdeIcg(conexion: Conexion, datos: Option<seq<Celdas>>, proveedores: map<string, ProveedorIcg>,
                                       marcas: set<string>, vendedores: seq<int>, existentes: set<Asignacion>)
    returns (inf: Informe)
    ensures conexion == SinConexion ==> inf == Fallido("No se pudo conectar a ICG")
    ensures conexion.ErrorConexion? ==> inf == Fallido("Error de conexión: " + conexion.detalle)
    ensures conexion == Conectada && (datos.None? || datos.value == []) ==> inf == Fallido("No se obtuvieron datos de ICG")
    ensures conexion == Conectada && datos.Some? && datos.value != [] ==>
              var filas := Leidas(datos.value);
              var ep := RecorrerProveedores(filas, proveedores);
              var em := RecorrerMarcas(filas, marcas);
              var cand := Candidatas(RelacionesDe(filas), ep.proveedores.Keys, em.marcas, vendedores, existentes);
              inf.Completado?
              && inf.proveedores == ep.proveedores && inf.marcas == em.marcas
              && inf.proveedoresCreados == ep.creados && inf.proveedoresActualizados == ep.actualizados
              && inf.marcasCreadas == em.creadas
              && (HayQueAsignar(ep, em, vendedores) ==>
                    Elementos(inf.asignaciones) == cand && (Distintas(vendedores) ==> inf.asignacionesCreadas == |cand|))
              && (!HayQueAsignar(ep, em, vendedores) ==> inf.asignaciones == [] && inf.asignacionesCreadas == 0)
              && inf.asignacionesCreadas == |inf.asignaciones|
              && inf.mensaje == MensajeInforme(ep.creados, ep.actualizados, em.creadas, inf.asignacionesCreadas)
  {
    if conexion == SinConexion {
      return Fallido("No se pudo conectar a ICG");
    }
    if conexion.ErrorConexion? {
      return Fallido("Error de conexión: " + conexion.detalle);
    }
    if datos.None? || datos.value == [] {
      return Fallido("No se obtuvieron datos de ICG");
    }
    var filas := Leidas(datos.value);
    var ep, em := RegistrarFilas(filas, proveedores, marcas);
    var nuevas: seq<Asignacion> := [];
    var creadas := 0;
    if vendedores != [] && (ep.nuevos != {} || em.nuevas != {}) {
      var rel := Relaciones(filas);
      nuevas := CrearAsignaciones(rel, ep.proveedores.Keys, em.marcas, vendedores, existentes);
      if nuevas != [] {
        creadas := |nuevas|;
      }
    }
    inf := Completado(MensajeInforme(ep.creados, ep.actualizados, em.creadas, creadas),
                      ep.creados, ep.actualizados, em.creadas, creadas, ep.proveedores, em.marcas, nuevas);
  }
}

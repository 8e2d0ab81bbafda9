/**
 * `import_data_sugerido_inventario` of `Compras/services/icg_import.py`: the
 * tolerant cell readers, the supplier catalogue pass, the `cod_icg` refresh,
 * the row loop with its three counters and the returned message.
 *
 * The query result is a sequence of rows, each a map from column name to cell;
 * the catalogue ids and the lines already in the lot are parameters.
 */
module IcgImport {
  import opened Resultados
  import opened Decimales
  import opened Textos

  // ---------------------------------------------------------------- Cells

  /** A Python float: finite, infinite or NaN. */
  datatype Flotante = Finito(x: real) | Infinito(negativo: bool) | NoNumero

  /**
   * A cell as pandas hands it over. A numeric cell carries the text `str()`
   * gives for it, and a text cell what `float()` makes of it (`None` when
   * `float()` raises).
   */
  datatype Celda =
    | Nulo
    | Booleano(b: bool)
    | Entero(i: int)
    | Numero(valor: Flotante, texto: string)
    | Texto(s: string, comoFloat: Option<Flotante>)

  /** `str(val)`. */
  function Str(c: Celda): string
  {
    match c
    case Nulo => "None"
    case Booleano(b) => if b then "True" else "False"
    case Entero(i) => IntATexto(i)
    case Numero(_, t) => t
    case Texto(s, _) => s
  }

  /** `float(val)`, `None` when it raises. */
  function AFloat(c: Celda): Option<Flotante>
  {
    match c
    case Nulo => None
    case Booleano(b) => Some(Finito(if b then 1.0 else 0.0))
    case Entero(i) => Some(Finito(i as real))
    case Numero(v, _) => Some(v)
    case Texto(_, f) => f
  }

  /** The texts the numeric readers treat as missing. */
  const NULOS_NUMERICOS: seq<string> := ["nan", "null", "none", "", "inf", "-inf"]

  /** The texts the text reader treats as missing. */
  const NULOS_TEXTO: seq<string> := ["nan", "null", "none", ""]

  /**
   * `_safe_int(val, default)`: a missing or null-looking cell, NaN, an
   * infinity and a failed conversion give the default; a boolean gives 0 or 1;
   * anything else is `int(float(val))`, truncated toward zero.
   */
  function SafeInt(c: Celda, d: int): (r: int)
    ensures c.Nulo? ==> r == d
    ensures c.Booleano? ==> r == (if c.b then 1 else 0)
    ensures !c.Booleano? && !(AFloat(c).Some? && AFloat(c).value.Finito?) ==> r == d
    ensures !c.Nulo? && !c.Booleano? && r != d ==>
      Strip(Lower(Str(c))) !in NULOS_NUMERICOS && r == Truncar(AFloat(c).value.x)
  {
    if c.Nulo? then d
    else if c.Booleano? then (if c.b then 1 else 0)
    else if Strip(Lower(Str(c))) in NULOS_NUMERICOS then d
    else
      match AFloat(c)
      case Some(Finito(x)) => Truncar(x)
      case _ => d
  }

  /**
   * `_safe_float(val, default)`: the default for a missing or null-looking
   * cell, NaN or a failed conversion, otherwise `float(val)` (which may be an
   * infinity when the text spells one out in another way).
   */
  function SafeFloat(c: Celda, d: Flotante): (r: Flotante)
    ensures r == d || AFloat(c) == Some(r)
    ensures r.NoNumero? ==> d.NoNumero?
    ensures c.Nulo? || Strip(Lower(Str(c))) in NULOS_NUMERICOS ==> r == d
  {
    if c.Nulo? then d
    else if Strip(Lower(Str(c))) in NULOS_NUMERICOS then d
    else
      match AFloat(c)
      case None => d
      case Some(NoNumero) => d
      case Some(v) => v
  }

  /** `_safe_str(val, default)`: the trimmed text, or the default for a missing or null-looking one. */
  function SafeStr(c: Celda, d: string): (r: string)
    ensures r == d || (r == Strip(Str(c)) && Lower(r) !in NULOS_TEXTO)
    ensures c.Nulo? ==> r == d
    ensures r != d ==> r != "" && r == Strip(r)
  {
    if c.Nulo? then d
    else
      var t := Strip(Str(c));
      StripIdempotente(Str(c));
      if Lower(t) in NULOS_TEXTO then d else t
  }

  /** Reading back a value `_safe_str` produced gives the same value. */
  lemma SafeStrIdempotente(c: Celda, f: Option<Flotante>)
    ensures SafeStr(Texto(SafeStr(c, ""), f), "") == SafeStr(c, "")
  {
    var r := SafeStr(c, "");
    if r != "" {
      StripIdempotente(Str(c));
    }
  }

  /** The text of an integer has no letters and no surrounding blanks, and ends in a digit. */
  lemma TextoDeEntero(i: int)
    ensures Lower(IntATexto(i)) == IntATexto(i)
    ensures Strip(IntATexto(i)) == IntATexto(i)
    ensures EsDigito(IntATexto(i)[|IntATexto(i)| - 1])
  {
    var s := IntATexto(i);
    StripSinBordes(s);
    if i < 0 {
      assert s == "-" + NatATexto(-i);
      assert forall k :: 1 <= k < |s| ==> s[k] == NatATexto(-i)[k - 1];
    }
    assert forall k :: 0 <= k < |s| ==> s[k] == '-' || EsDigito(s[k]);
    assert Lower(s) == s;
  }

  /** An integer cell reads back as itself through both numeric readers. */
  lemma SafeIntEntero(i: int, d: int)
    ensures SafeInt(Entero(i), d) == i
    ensures SafeFloat(Entero(i), Finito(d as real)) == Finito(i as real)
  {
    TextoDeEntero(i);
    var s := IntATexto(i);
    assert forall w :: w in NULOS_NUMERICOS ==> w == [] || !EsDigito(w[|w| - 1]);
  }

  /** A finite cell is read as its truncation, which lies within 1 of it toward zero. */
  lemma SafeIntTrunca(x: real, texto: string, d: int)
    requires Strip(Lower(texto)) !in NULOS_NUMERICOS
    ensures SafeInt(Numero(Finito(x), texto), d) == Truncar(x)
    ensures x >= 0.0 ==> Truncar(x) as real <= x < Truncar(x) as real + 1.0
    ensures x < 0.0 ==> Truncar(x) as real - 1.0 < x <= Truncar(x) as real
  {
  }

  /** `row.get(col)`: a missing column reads as `None`. */
  function Get(fila: map<string, Celda>, col: string): Celda
  {
    if col in fila then fila[col] else Nulo
  }

  /**
   * One row of the query result; `falla` stands for building the model
   * instance raising, which the loop counts as an error.
   */
  datatype FilaDf = FilaDf(celdas: map<string, Celda>, falla: bool)

  function CodAlmacen(f: FilaDf): string { SafeStr(Get(f.celdas, "CODALMACEN"), "") }
  function CodArticulo(f: FilaDf): string { SafeStr(Get(f.celdas, "Código"), "") }

  // ------------------------------------------------------- Catalogue pass

  const PROVEEDOR_DEFECTO := "DESCONOCIDO (ICG)"

  /** What the first loop reads from a row: `Proveedor`, `Marca` and `CodProveedor`, through `_safe_str`. */
  datatype LecturaCatalogo = LecturaCatalogo(proveedor: string, marca: string, codProveedor: string)

  function LeerCatalogo(f: FilaDf): LecturaCatalogo
  {
    LecturaCatalogo(SafeStr(Get(f.celdas, "Proveedor"), ""), SafeStr(Get(f.celdas, "Marca"), ""),
                    SafeStr(Get(f.celdas, "CodProveedor"), ""))
  }

  function LecturasCatalogo(filas: seq<FilaDf>): (r: seq<LecturaCatalogo>)
    ensures |r| == |filas| && forall i :: 0 <= i < |filas| ==> r[i] == LeerCatalogo(filas[i])
  {
    seq(|filas|, i requires 0 <= i < |filas| => LeerCatalogo(filas[i]))
  }

  /** The supplier names, brand names and name -> `CodProveedor` map of the first pass. */
  datatype Catalogo = Catalogo(proveedores: set<string>, marcas: set<string>, codigos: map<string, string>)

  function PasoCatalogo(k: Catalogo, l: LecturaCatalogo): Catalogo
  {
    var p := l.proveedor;
    var k1 :=
      if p == "" then k
      else k.(proveedores := k.proveedores + {p},
              codigos := if l.codProveedor != "" && p !in k.codigos then k.codigos[p := l.codProveedor] else k.codigos);
    if l.marca == "" then k1 else k1.(marcas := k1.marcas + {l.marca})
  }

  /** The catalogue after the rows, in order. */
  function Catalogos(ls: seq<LecturaCatalogo>): Catalogo
  {
    if ls == [] then Catalogo({}, {}, map[])
    else PasoCatalogo(Catalogos(ls[..|ls| - 1]), ls[|ls| - 1])
  }

  /** The first loop over `df`. */
  method RecorrerCatalogo(filas: seq<FilaDf>) returns (proveedores: set<string>, marcas: set<string>, codigos: map<string, string>)
    ensures proveedores == Catalogos(LecturasCatalogo(filas)).proveedores
    ensures marcas == Catalogos(LecturasCatalogo(filas)).marcas
    ensures codigos == Catalogos(LecturasCatalogo(filas)).codigos
  {
    proveedores, marcas, codigos := RecorrerLecturasCatalogo(LecturasCatalogo(filas));
  }

  /** The loop itself, over the rows already read. */
  method RecorrerLecturasCatalogo(ls: seq<LecturaCatalogo>)
    returns (proveedores: set<string>, marcas: set<string>, codigos: map<string, string>)
    ensures Catalogo(proveedores, marcas, codigos) == Catalogos(ls)
  {
    proveedores, marcas, codigos := {}, {}, map[];
    var k := 0;
    while k < |ls|
      invariant 0 <= k <= |ls|
      invariant Catalogo(proveedores, marcas, codigos) == Catalogos(ls[..k])
    {
      assert ls[..k + 1][..k] == ls[..k];
      var l := ls[k];
      if l.proveedor != "" {
        proveedores := proveedores + {l.proveedor};
        if l.codProveedor != "" && l.proveedor !in codigos {
          codigos := codigos[l.proveedor := l.codProveedor];
        }
      }
      if l.marca != "" {
        marcas := marcas + {l.marca};
      }
      k := k + 1;
    }
    assert ls[..|ls|] == ls;
  }

  /**
   * A supplier gets a code exactly when one of its rows has one, and the code
   * kept is that of its first such row.
   */
  lemma {:induction false} PrimerCodigo(ls: seq<LecturaCatalogo>, p: string)
    ensures p in Catalogos(ls).codigos <==>
      exists i :: 0 <= i < |ls| && ls[i].proveedor == p && p != "" && ls[i].codProveedor != ""
    ensures p in Catalogos(ls).codigos ==>
      exists i :: 0 <= i < |ls| && ls[i].proveedor == p && ls[i].codProveedor == Catalogos(ls).codigos[p]
        && forall j :: 0 <= j < i && ls[j].proveedor == p ==> ls[j].codProveedor == ""
  {
    if ls != [] {
      var n := |ls| - 1;
      var previo := ls[..n];
      PrimerCodigo(previo, p);
      var antes := Catalogos(previo).codigos;
      if p in antes {
        var i :| 0 <= i < n && previo[i].proveedor == p && previo[i].codProveedor == antes[p]
                 && forall j :: 0 <= j < i && previo[j].proveedor == p ==> previo[j].codProveedor == "";
        assert Catalogos(ls).codigos[p] == antes[p];
        assert ls[i] == previo[i];
        forall j | 0 <= j < i && ls[j].proveedor == p
          ensures ls[j].codProveedor == ""
        {
          assert previo[j] == ls[j];
        }
      } else if p in Catalogos(ls).codigos {
        assert ls[n].proveedor == p && ls[n].codProveedor == Catalogos(ls).codigos[p];
        forall j | 0 <= j < n && ls[j].proveedor == p
          ensures ls[j].codProveedor == ""
        {
          assert previo[j] == ls[j];
        }
      } else {
        forall i | 0 <= i < |ls| && ls[i].proveedor == p && p != ""
          ensures ls[i].codProveedor == ""
        {
          if i < n {
            assert previo[i] == ls[i];
          }
        }
      }
    }
  }

  /** Every supplier and brand collected is a non-empty name of some row, and only suppliers get codes. */
  lemma {:induction false} NombresDeFilas(ls: seq<LecturaCatalogo>)
    ensures forall p :: p in Catalogos(ls).proveedores ==>
      p != "" && exists i :: 0 <= i < |ls| && ls[i].proveedor == p
    ensures forall m :: m in Catalogos(ls).marcas ==>
      m != "" && exists i :: 0 <= i < |ls| && ls[i].marca == m
    ensures Catalogos(ls).codigos.Keys <= Catalogos(ls).proveedores
  {
    if ls != [] {
      var n := |ls| - 1;
      var previo := ls[..n];
      NombresDeFilas(previo);
      forall p | p in Catalogos(ls).proveedores
        ensures p != "" && exists i :: 0 <= i < |ls| && ls[i].proveedor == p
      {
        if p in Catalogos(previo).proveedores {
          var i :| 0 <= i < n && previo[i].proveedor == p;
          assert ls[i] == previo[i];
        } else {
          assert ls[n].proveedor == p;
        }
      }
      forall m | m in Catalogos(ls).marcas
        ensures m != "" && exists i :: 0 <= i < |ls| && ls[i].marca == m
      {
        if m in Catalogos(previo).marcas {
          var i :| 0 <= i < n && previo[i].marca == m;
          assert ls[i] == previo[i];
        } else {
          assert ls[n].marca == m;
        }
      }
    }
  }

  /** The names handed to `_ensure_catalogo_by_nombre`: the suppliers found plus the default one. */
  function ProveedoresAsegurados(k: Catalogo): set<string>
  {
    k.proveedores + {PROVEEDOR_DEFECTO}
  }

  /** The default supplier is always ensured, and every other ensured name is some row's supplier. */
  lemma DefectoAsegurado(ls: seq<LecturaCatalogo>)
    ensures PROVEEDOR_DEFECTO in ProveedoresAsegurados(Catalogos(ls))
    ensures forall p :: p in ProveedoresAsegurados(Catalogos(ls)) && p != PROVEEDOR_DEFECTO ==>
      p != "" && exists i :: 0 <= i < |ls| && ls[i].proveedor == p
  {
    NombresDeFilas(ls);
  }

  // --------------------------------------------------- cod_icg refresh

  /** `_safe_str(getattr(obj, "cod_icg", ""))`. */
  function CodigoGuardado(cod: Option<string>): string
  {
    SafeStr(if cod.None? then Nulo else Texto(cod.value, None), "")
  }

  /**
   * The suppliers whose `cod_icg` is rewritten, with the new code: those in the
   * catalogue (`actuales`, their current `cod_icg`) with a non-empty code that
   * differs from the stored one.
   */
  function ActualizacionesCodIcg(codigos: map<string, string>, actuales: map<string, Option<string>>): (u: map<string, string>)
  {
    map n | n in codigos && n in actuales
            && SafeStr(Texto(codigos[n], None), "") != ""
            && CodigoGuardado(actuales[n]) != SafeStr(Texto(codigos[n], None), "")
      :: SafeStr(Texto(codigos[n], None), "")
  }

  /** `bulk_update(to_update, ["cod_icg"])`. */
  function AplicarCodIcg(actuales: map<string, Option<string>>, u: map<string, string>): (r: map<string, Option<string>>)
    ensures r.Keys == actuales.Keys
  {
    map n | n in actuales :: if n in u then Some(u[n]) else actuales[n]
  }

  /**
   * After the refresh every catalogued supplier with a code stores it, and a
   * second refresh changes nothing.
   */
  lemma CodIcgIdempotente(codigos: map<string, string>, actuales: map<string, Option<string>>)
    ensures var despues := AplicarCodIcg(actuales, ActualizacionesCodIcg(codigos, actuales));
            (forall n :: n in codigos && n in actuales && SafeStr(Texto(codigos[n], None), "") != "" ==>
               CodigoGuardado(despues[n]) == SafeStr(Texto(codigos[n], None), ""))
            && ActualizacionesCodIcg(codigos, despues) == map[]
  {
    var u := ActualizacionesCodIcg(codigos, actuales);
    var despues := AplicarCodIcg(actuales, u);
    forall n | n in codigos && n in actuales && SafeStr(Texto(codigos[n], None), "") != ""
      ensures CodigoGuardado(despues[n]) == SafeStr(Texto(codigos[n], None), "")
    {
      if n in u {
        SafeStrIdempotente(Texto(codigos[n], None), None);
      }
    }
    assert ActualizacionesCodIcg(codigos, despues).Keys == {};
  }

  // ---------------------------------------------------------- Row loop

  /** The context of the loop: the lot, the catalogue ids and the default supplier's id. */
  datatype Contexto = Contexto(lote: int, provMap: map<string, int>, marcaMap: map<string, int>, provDefecto: Option<int>)

  /** A `SugeridoLinea` as the import builds it. */
  datatype LineaImportada = LineaImportada(
    lote: int,
    codAlmacen: string,
    nombreAlmacen: Option<string>,
    codigoArticulo: string,
    referencia: Option<string>,
    departamento: Option<string>,
    seccion: Option<string>,
    familia: Option<string>,
    subfamilia: Option<string>,
    proveedorId: Option<int>,
    marcaId: Option<int>,
    descripcion: string,
    stockActual: int,
    stockMinimo: int,
    stockMaximo: int,
    udsCompraBase: int,
    udsCompraMult: int,
    embalaje: int,
    ultimoCosto: Flotante,
    tipo: Option<string>,
    clasificacion: Option<string>,
    sugeridoBase: int,
    nuevoSugeridoProv: int,
    sugeridoInterno: int,
    factorAlmacen: Flotante,
    sugeridoCalculado: int,
    cajasCalculadas: Flotante,
    costoLinea: Flotante,
    descuentoProvPct: Flotante,
    codProveedor: Option<string>,
    iva: Flotante,
    esInformativa: bool,
    proveedorPrincipal: string,
    clasificacionOriginal: string)

  /** `x or None` on a text. */
  function OrNone(s: string): Option<string>
  {
    if s == "" then None else Some(s)
  }

  /** `prov_map.get(prov_name) or default_prov_id`. */
  function ProveedorId(ctx: Contexto, nombre: string): (r: Option<int>)
    ensures nombre !in ctx.provMap ==> r == ctx.provDefecto
    ensures nombre in ctx.provMap && ctx.provMap[nombre] != 0 ==> r == Some(ctx.provMap[nombre])
  {
    if nombre in ctx.provMap && ctx.provMap[nombre] != 0 then Some(ctx.provMap[nombre]) else ctx.provDefecto
  }

  /** `marca_map.get(marca_name) if marca_name else None`. */
  function MarcaId(ctx: Contexto, nombre: string): (r: Option<int>)
  {
    if nombre != "" && nombre in ctx.marcaMap then Some(ctx.marcaMap[nombre]) else None
  }

  /** The `SugeridoLinea(...)` call for an accepted row. */
  function ConstruirLinea(f: FilaDf, codAlm: string, codArt: string, ctx: Contexto): (l: LineaImportada)
    ensures l.lote == ctx.lote && l.codAlmacen == codAlm && l.codigoArticulo == codArt
    ensures l.nuevoSugeridoProv == l.sugeridoBase && l.sugeridoInterno == l.sugeridoBase
    ensures l.descripcion != ""
    ensures l.proveedorId == ProveedorId(ctx, SafeStr(Get(f.celdas, "Proveedor"), ""))
  {
    var c := f.celdas;
    var base := SafeInt(Get(c, "SugeridoBase"), 0);
    var descripcion := SafeStr(Get(c, "Descripción"), "");
    LineaImportada(
      lote := ctx.lote,
      codAlmacen := codAlm,
      nombreAlmacen := OrNone(SafeStr(Get(c, "Almacen"), "")),
      codigoArticulo := codArt,
      referencia := OrNone(SafeStr(Get(c, "Referencia"), "")),
      departamento := OrNone(SafeStr(Get(c, "Departamento"), "")),
      seccion := OrNone(SafeStr(Get(c, "Sección"), "")),
      familia := OrNone(SafeStr(Get(c, "Familia"), "")),
      subfamilia := OrNone(SafeStr(Get(c, "SubFamilia"), "")),
      proveedorId := ProveedorId(ctx, SafeStr(Get(c, "Proveedor"), "")),
      marcaId := MarcaId(ctx, SafeStr(Get(c, "Marca"), "")),
      descripcion := if descripcion == "" then "SIN DESCRIPCIÓN" else descripcion,
      stockActual := SafeInt(Get(c, "StockActual"), 0),
      stockMinimo := SafeInt(Get(c, "StockMinimo"), 0),
      stockMaximo := SafeInt(Get(c, "StockMaximo"), 0),
      udsCompraBase := SafeInt(Get(c, "UdsCompraBase"), 1),
      udsCompraMult := SafeInt(Get(c, "UdsCompraMult"), 1),
      embalaje := SafeInt(Get(c, "Embalaje"), 1),
      ultimoCosto := SafeFloat(Get(c, "UltimoCosto"), Finito(0.0)),
      tipo := OrNone(SafeStr(Get(c, "Tipo"), "")),
      clasificacion := OrNone(SafeStr(Get(c, "Clasificacion"), "")),
      sugeridoBase := base,
      nuevoSugeridoProv := base,
      sugeridoInterno := base,
      factorAlmacen := SafeFloat(Get(c, "Factor"), Finito(1.0)),
      sugeridoCalculado := SafeInt(Get(c, "Sugerido"), 0),
      cajasCalculadas := SafeFloat(Get(c, "Cajas"), Finito(0.0)),
      costoLinea := SafeFloat(Get(c, "CostoLinea"), Finito(0.0)),
      descuentoProvPct := SafeFloat(Get(c, "UltimoDescuentoPedido"), Finito(0.0)),
      codProveedor := OrNone(SafeStr(Get(c, "CodProveedor"), "")),
      iva := SafeFloat(Get(c, "IVA"), Finito(0.0)),
      esInformativa := SafeInt(Get(c, "EsInformativa"), 0) != 0,
      proveedorPrincipal := SafeStr(Get(c, "proveedorPrincipal"), ""),
      clasificacionOriginal := SafeStr(Get(c, "Clasificacion"), ""))
  }

  /** What the second loop reads from a row: the two codes, whether building fails, and the line it builds. */
  datatype Lectura = Lectura(codAlm: string, codArt: string, falla: bool, linea: LineaImportada)

  function Leer(f: FilaDf, ctx: Contexto): Lectura
  {
    Lectura(CodAlmacen(f), CodArticulo(f), f.falla, ConstruirLinea(f, CodAlmacen(f), CodArticulo(f), ctx))
  }

  /** The line read belongs to the lot, carries the row's codes and starts its three suggestions equal. */
  predicate Consistente(l: Lectura, lote: int)
  {
    l.linea.lote == lote && l.linea.codAlmacen == l.codAlm && l.linea.codigoArticulo == l.codArt
    && l.linea.sugeridoInterno == l.linea.sugeridoBase && l.linea.nuevoSugeridoProv == l.linea.sugeridoBase
  }

  /** The readings of the rows, in order. */
  function Lecturas(filas: seq<FilaDf>, ctx: Contexto): (r: seq<Lectura>)
    ensures |r| == |filas| && forall i :: 0 <= i < |filas| ==> r[i] == Leer(filas[i], ctx)
  {
    seq(|filas|, i requires 0 <= i < |filas| => Leer(filas[i], ctx))
  }

  /** Every reading is consistent with the lot. */
  lemma LecturasConsistentes(filas: seq<FilaDf>, ctx: Contexto)
    ensures forall i :: 0 <= i < |filas| ==> Consistente(Lecturas(filas, ctx)[i], ctx.lote)
  {
    forall i | 0 <= i < |filas|
      ensures Consistente(Lecturas(filas, ctx)[i], ctx.lote)
    {
      LeerConsistente(filas[i], ctx);
    }
  }

  lemma LeerConsistente(f: FilaDf, ctx: Contexto)
    ensures Consistente(Leer(f, ctx), ctx.lote)
  {
  }

  /** The loop state: the `existentes` set, `registros` and the three counters. */
  datatype Estado = Estado(existentes: set<(string, string)>, registros: seq<LineaImportada>,
                           insertados: nat, omitidos: nat, errores: nat)

  /** One iteration of the second loop over `df`. */
  function Paso(e: Estado, l: Lectura): Estado
  {
    if l.codAlm == "" || l.codArt == "" then e.(errores := e.errores + 1)
    else if (l.codAlm, l.codArt) in e.existentes then e.(omitidos := e.omitidos + 1)
    else
      var existentes := e.existentes + {(l.codAlm, l.codArt)};
      if l.falla then e.(existentes := existentes, errores := e.errores + 1)
      else e.(existentes := existentes, registros := e.registros + [l.linea], insertados := e.insertados + 1)
  }

  /** The loop state after the rows, in order. */
  function Importacion(ls: seq<Lectura>, e0: Estado): Estado
  {
    if ls == [] then e0
    else Paso(Importacion(ls[..|ls| - 1], e0), ls[|ls| - 1])
  }

  /** The second loop over `df`, from the lot's existing pairs. */
  method ImportarFilas(filas: seq<FilaDf>, enLote: set<(string, string)>, ctx: Contexto)
    returns (registros: seq<LineaImportada>, insertados: nat, omitidos: nat, errores: nat)
    ensures var e := Importacion(Lecturas(filas, ctx), Estado(enLote, [], 0, 0, 0));
            registros == e.registros && insertados == e.insertados && omitidos == e.omitidos && errores == e.errores
  {
    registros, insertados, omitidos, errores := RecorrerLecturas(Lecturas(filas, ctx), enLote);
  }

  /** The loop itself, over the rows already read. */
  method RecorrerLecturas(ls: seq<Lectura>, enLote: set<(string, string)>)
    returns (registros: seq<LineaImportada>, insertados: nat, omitidos: nat, errores: nat)
    ensures var e := Importacion(ls, Estado(enLote, [], 0, 0, 0));
            registros == e.registros && insertados == e.insertados && omitidos == e.omitidos && errores == e.errores
  {
    var existentes := enLote;
    registros, insertados, omitidos, errores := [], 0, 0, 0;
    var k := 0;
    while k < |ls|
      invariant 0 <= k <= |ls|
      invariant Estado(existentes, registros, insertados, omitidos, errores) == Importacion(ls[..k], Estado(enLote, [], 0, 0, 0))
    {
      var l := ls[k];
      ImportacionPaso(ls, k, Estado(enLote, [], 0, 0, 0));
      if l.codAlm == "" || l.codArt == "" {
        errores := errores + 1;
      } else if (l.codAlm, l.codArt) in existentes {
        omitidos := omitidos + 1;
      } else {
        existentes := existentes + {(l.codAlm, l.codArt)};
        if l.falla {
          errores := errores + 1;
        } else {
          registros := registros + [l.linea];
          insertados := insertados + 1;
        }
      }
      k := k + 1;
    }
    assert ls[..|ls|] == ls;
  }

  lemma ImportacionPaso(ls: seq<Lectura>, k: nat, e0: Estado)
    requires k < |ls|
    ensures Importacion(ls[..k + 1], e0) == Paso(Importacion(ls[..k], e0), ls[k])
  {
    assert ls[..k + 1][..k] == ls[..k];
  }

  /** The (warehouse, article) pair a line is keyed by. */
  function Clave(l: LineaImportada): (string, string)
  {
    (l.codAlmacen, l.codigoArticulo)
  }

  /** No two records share a pair, and every pair recorded is in `existentes`. */
  predicate Coherente(e: Estado)
  {
    (forall i, j :: 0 <= i < j < |e.registros| ==> Clave(e.registros[i]) != Clave(e.registros[j]))
    && (forall i :: 0 <= i < |e.registros| ==> Clave(e.registros[i]) in e.existentes)
  }

  /**
   * Every row adds to exactly one counter, every insertion appends one record,
   * and `existentes` only grows.
   */
  lemma {:induction false} UnContadorPorFila(ls: seq<Lectura>, e0: Estado)
    ensures var e := Importacion(ls, e0);
            e.insertados + e.omitidos + e.errores == e0.insertados + e0.omitidos + e0.errores + |ls|
            && e.insertados >= e0.insertados
            && |e.registros| == |e0.registros| + e.insertados - e0.insertados
            && e.registros[..|e0.registros|] == e0.registros
            && e0.existentes <= e.existentes
  {
    if ls != [] {
      UnContadorPorFila(ls[..|ls| - 1], e0);
      var a := Importacion(ls[..|ls| - 1], e0);
      var e := Importacion(ls, e0);
      assert e.registros == a.registros || e.registros == a.registros + [ls[|ls| - 1].linea];
      assert e.registros[..|a.registros|] == a.registros;
      assert a.registros[..|e0.registros|] == e0.registros;
    }
  }

  /**
   * Starting from the lot's pairs, no pair is inserted twice and no pair
   * already in the lot is inserted; every new record comes from a row with
   * both codes, and starts its three suggestions equal.
   */
  lemma {:induction false} SinDuplicados(ls: seq<Lectura>, e0: Estado, lote: int)
    requires Coherente(e0)
    requires forall i :: 0 <= i < |ls| ==> Consistente(ls[i], lote)
    ensures var e := Importacion(ls, e0);
            Coherente(e)
            && (forall i :: |e0.registros| <= i < |e.registros| ==>
                  Clave(e.registros[i]) !in e0.existentes
                  && e.registros[i].codAlmacen != "" && e.registros[i].codigoArticulo != ""
                  && e.registros[i].lote == lote
                  && e.registros[i].sugeridoInterno == e.registros[i].sugeridoBase
                  && e.registros[i].nuevoSugeridoProv == e.registros[i].sugeridoBase)
  {
    if ls != [] {
      var previo := ls[..|ls| - 1];
      SinDuplicados(previo, e0, lote);
      UnContadorPorFila(previo, e0);
      var a := Importacion(previo, e0);
      var l := ls[|ls| - 1];
      var e := Paso(a, l);
      if l.codAlm != "" && l.codArt != "" && (l.codAlm, l.codArt) !in a.existentes && !l.falla {
        assert e.registros == a.registros + [l.linea];
        assert Clave(l.linea) !in a.existentes;
      }
    }
  }

  // ------------------------------------------------------------ Message

  /** `"Proceso #<pk> -> líneas nuevas: <n>, omitidas (duplicadas en lote): <m>"`. */
  function Cabecera(pk: int, insertados: nat, omitidos: nat): string
  {
    "Proceso #" + IntATexto(pk) + " -> líneas nuevas: " + NatATexto(insertados)
    + ", omitidas (duplicadas en lote): " + NatATexto(omitidos)
  }

  const SUFIJO_ERRORES := ", errores: "

  /** The returned message: the header, `", errores: N"` only when there were errors, and a final '.'. */
  function MensajeFinal(pk: int, insertados: nat, omitidos: nat, errores: nat): (m: string)
    ensures |m| > 0 && m[|m| - 1] == '.'
    ensures EmpiezaCon(m, Cabecera(pk, insertados, omitidos))
    ensures errores == 0 <==> |m| == |Cabecera(pk, insertados, omitidos)| + 1
  {
    var c := Cabecera(pk, insertados, omitidos);
    var m := (if errores > 0 then c + SUFIJO_ERRORES + NatATexto(errores) else c) + ".";
    assert m[..|c|] == c;
    m
  }

  /** The error count can be read back from the message. */
  lemma ErroresLegibles(pk: int, insertados: nat, omitidos: nat, errores: nat)
    requires errores > 0
    ensures var m := MensajeFinal(pk, insertados, omitidos, errores);
            var desde := |Cabecera(pk, insertados, omitidos)| + |SUFIJO_ERRORES|;
            desde < |m| && m[|Cabecera(pk, insertados, omitidos)|..desde] == SUFIJO_ERRORES
            && ParseInt(m[desde..|m| - 1]) == Some(errores)
  {
    MensajeConErrores(pk, insertados, omitidos, errores);
    LeerErrores(Cabecera(pk, insertados, omitidos), errores);
  }

  /** After any header, the suffix and the count read back. */
  lemma LeerErrores(c: string, errores: nat)
    ensures var m := c + SUFIJO_ERRORES + NatATexto(errores) + ".";
            var desde := |c| + |SUFIJO_ERRORES|;
            desde < |m| && m[|c|..desde] == SUFIJO_ERRORES && ParseInt(m[desde..|m| - 1]) == Some(errores)
  {
    var n := NatATexto(errores);
    Trozos(c, SUFIJO_ERRORES, n, ".");
    ParseIntATexto(errores);
  }

  lemma MensajeConErrores(pk: int, insertados: nat, omitidos: nat, errores: nat)
    requires errores > 0
    ensures MensajeFinal(pk, insertados, omitidos, errores)
            == Cabecera(pk, insertados, omitidos) + SUFIJO_ERRORES + NatATexto(errores) + "."
  {
  }

  // ----------------------------------------------------------- Whole run

  /** What `conectar_sql_server()` returned. */
  datatype Conexion = SinConexion | ErrorConexion(detalle: string) | Conectada

  /** The returned message and the lines `bulk_create` inserts. */
  datatype Salida = Salida(mensaje: string, registros: seq<LineaImportada>, fallido: bool)

  /**
   * `import_data_sugerido_inventario` once the user is resolved: `loteId` is
   * the lot asked for (`None` or 0 meaning a new lot, whose pk is `nuevo`),
   * `lotes` the existing lot ids, `df` the query result (`None` when the query
   * fails) and `enLote` the pairs already in the lot.
   */
  function Importar(loteId: Option<int>, lotes: set<int>, nuevo: int, conexion: Conexion,
                    df: Option<seq<FilaDf>>, enLote: set<(string, string)>, ctx: Contexto): (s: Salida)
    ensures loteId.Some? && loteId.value != 0 && loteId.value !in lotes ==>
      s == Salida("Lote con id=" + IntATexto(loteId.value) + " no existe.", [], false)
    ensures !conexion.Conectada? || df.None? ==> s.registros == []
    ensures s.fallido <==> !(loteId.Some? && loteId.value != 0 && loteId.value !in lotes) && !conexion.Conectada?
  {
    if loteId.Some? && loteId.value != 0 && loteId.value !in lotes then
      Salida("Lote con id=" + IntATexto(loteId.value) + " no existe.", [], false)
    else
      var pk := if loteId.Some? && loteId.value != 0 then loteId.value else nuevo;
      match conexion
      case SinConexion => Salida("Fallo de conexión a ICG en Proceso #" + IntATexto(pk) + ".", [], true)
      case ErrorConexion(d) =>
        Salida("Fallo de conexión a ICG en Proceso #" + IntATexto(pk) + ". Detalle: " + d, [], true)
      case Conectada =>
        if df.None? then Salida("Error ejecutando consulta en Proceso #" + IntATexto(pk), [], false)
        else
          var e := Importacion(Lecturas(df.value, ctx), Estado(enLote, [], 0, 0, 0));
          Salida(MensajeFinal(pk, e.insertados, e.omitidos, e.errores), e.registros, false)
  }

  /**
   * A successful run inserts one line per counted insertion, none of them
   * already in the lot and no pair twice, and its message accounts for every
   * row.
   */
  lemma ImportarCuenta(loteId: Option<int>, lotes: set<int>, nuevo: int, df: seq<FilaDf>,
                       enLote: set<(string, string)>, ctx: Contexto)
    requires !(loteId.Some? && loteId.value != 0 && loteId.value !in lotes)
    ensures var s := Importar(loteId, lotes, nuevo, Conectada, Some(df), enLote, ctx);
            var e := Importacion(Lecturas(df, ctx), Estado(enLote, [], 0, 0, 0));
            s.registros == e.registros
            && e.insertados + e.omitidos + e.errores == |df|
            && |s.registros| == e.insertados
            && (forall i, j :: 0 <= i < j < |s.registros| ==> Clave(s.registros[i]) != Clave(s.registros[j]))
            && (forall i :: 0 <= i < |s.registros| ==> Clave(s.registros[i]) !in enLote)
  {
    LecturasConsistentes(df, ctx);
    CuentaLecturas(Lecturas(df, ctx), enLote, ctx.lote);
  }

  lemma CuentaLecturas(ls: seq<Lectura>, enLote: set<(string, string)>, lote: int)
    requires forall i :: 0 <= i < |ls| ==> Consistente(ls[i], lote)
    ensures var e := Importacion(ls, Estado(enLote, [], 0, 0, 0));
            e.insertados + e.omitidos + e.errores == |ls|
            && |e.registros| == e.insertados
            && (forall i, j :: 0 <= i < j < |e.registros| ==> Clave(e.registros[i]) != Clave(e.registros[j]))
            && (forall i :: 0 <= i < |e.registros| ==> Clave(e.registros[i]) !in enLote)
  {
    UnContadorPorFila(ls, Estado(enLote, [], 0, 0, 0));
    SinDuplicados(ls, Estado(enLote, [], 0, 0, 0), lote);
  }
}

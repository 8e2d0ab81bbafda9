/**
 * The article upload of `automatizaciones/service/upload.py`: the rows of an
 * uploaded sheet update or create `Articulos` (keyed by `code`), flag what
 * changed and apply the discount of the day; the flagged articles are then
 * sent to Rappi store by store.
 *
 * The article table is a sequence in primary-key order. The day of the week,
 * the sheet and the Rappi endpoint are parameters: `api` is what the POST of
 * one store's records answers, or the exception it raised.
 */
module CargaArticulos {
  import opened Resultados
  import opened Textos
  import opened Decimales

  /** The error `update_or_create` raises when two stored articles share the code. */
  const VARIOS_CODIGOS := "MultipleObjectsReturned"
  const NADA_QUE_ENVIAR := "No hay artículos modificados para enviar."
  const TODAS := "all"

  /** The columns copied verbatim from the row into the article. */
  datatype Otros = Otros(
    idArticulo: string, storeId: string, ean: Option<string>, name: Option<string>,
    trademark: Option<string>, description: Option<string>, saleType: string, isAvailable: bool,
    subfamilia: Option<string>)

  /** A row of the sheet; `None` is a missing (NaN) cell, text cells are already `str()` of the cell. */
  datatype Fila = Fila(
    code: Option<string>, departamento: Option<string>, secciones: Option<string>, familia: Option<string>,
    stock: Option<real>, price: Option<real>, discountPrice: Option<real>, otros: Otros)

  /** A row after normalisation. */
  datatype Lectura = Lectura(
    code: string, departamento: string, secciones: string, familia: string,
    stock: int, price: real, discountPrice: real, otros: Otros)

  /** A stored `Articulos` row (its numeric columns are not nullable). */
  datatype Articulo = Articulo(
    code: Option<string>, stock: int, price: real, discountPrice: real, modificado: bool,
    departamento: string, secciones: string, familia: string, otros: Otros)

  /** A `DescuentoDiario`. */
  datatype Descuento = Descuento(
    dia: int, departamento: Option<string>, secciones: Option<string>, familia: Option<string>,
    porcentaje: real)

  // ------------------------------------------------------------ Row normalisation

  /** `str(x).strip()` of a text cell, `""` when it is missing. */
  function Texto(c: Option<string>): (r: string)
    ensures c.None? ==> r == ""
    ensures c.Some? ==> r == Strip(c.value)
  {
    if c.Some? then Strip(c.value) else ""
  }

  /**
   * The normalised row: a missing code or classification is `""`, a missing
   * stock `0` (a present one truncated by `int()`), a missing price `0.0`
   * and a missing discount price the price.
   */
  function Leer(f: Fila): (l: Lectura)
    ensures l.code == Texto(f.code) && l.departamento == Texto(f.departamento)
    ensures l.secciones == Texto(f.secciones) && l.familia == Texto(f.familia)
    ensures f.stock.None? ==> l.stock == 0
    ensures f.stock.Some? && f.stock.value >= 0.0 ==> l.stock as real <= f.stock.value < l.stock as real + 1.0
    ensures f.price.None? ==> l.price == 0.0
    ensures f.price.Some? ==> l.price == f.price.value
    ensures f.discountPrice.None? ==> l.discountPrice == l.price
    ensures f.discountPrice.Some? ==> l.discountPrice == f.discountPrice.value
    ensures l.otros == f.otros
  {
    var price := f.price.GetOr(0.0);
    Lectura(Texto(f.code), Texto(f.departamento), Texto(f.secciones), Texto(f.familia),
            if f.stock.Some? then Truncar(f.stock.value) else 0,
            price, f.discountPrice.GetOr(price), f.otros)
  }

  // ------------------------------------------------------------ Daily discounts

  /** Python truthiness of an optional text column. */
  predicate Lleno(s: Option<string>)
  {
    s.Some? && s.value != ""
  }

  /** `descuento.campo and descuento.campo == valor`. */
  predicate Coincide(campo: Option<string>, valor: string)
  {
    Lleno(campo) && campo.value == valor
  }

  /** The five rules of the program, in its order. */
  predicate Aplica(d: Descuento, dep: string, sec: string, fam: string)
  {
    var D := Lleno(d.departamento);
    var S := Lleno(d.secciones);
    var F := Lleno(d.familia);
    var pd := Coincide(d.departamento, dep);
    var ps := Coincide(d.secciones, sec);
    var pf := Coincide(d.familia, fam);
    (D && !S && !F && pd) || (D && S && !F && pd && ps) || (D && S && F && pd && ps && pf)
    || (!D && S && !F && ps) || (!D && !S && F && pf)
  }

  /** The filled columns of a discount form one of the five accepted shapes. */
  predicate Forma(d: Descuento)
  {
    var D := Lleno(d.departamento);
    var S := Lleno(d.secciones);
    var F := Lleno(d.familia);
    (D && !S && !F) || (D && S && !F) || (D && S && F) || (!D && S && !F) || (!D && !S && F)
  }

  /**
   * A discount applies exactly when its filled columns form an accepted
   * shape and each of them equals the article's value; so a discount with
   * no column, or with a family but a missing section, never applies.
   */
  lemma AplicaFormas(d: Descuento, dep: string, sec: string, fam: string)
    ensures Aplica(d, dep, sec, fam) <==>
              Forma(d)
              && (Lleno(d.departamento) ==> d.departamento.value == dep)
              && (Lleno(d.secciones) ==> d.secciones.value == sec)
              && (Lleno(d.familia) ==> d.familia.value == fam)
    ensures !Lleno(d.departamento) && !Lleno(d.secciones) && !Lleno(d.familia) ==> !Aplica(d, dep, sec, fam)
    ensures !Lleno(d.secciones) && Lleno(d.familia) && Lleno(d.departamento) ==> !Aplica(d, dep, sec, fam)
    ensures Lleno(d.secciones) && Lleno(d.familia) && !Lleno(d.departamento) ==> !Aplica(d, dep, sec, fam)
  {
  }

  /** `DescuentoDiario.objects.filter(dia=hoy)`, in table order. */
  function DelDia(ds: seq<Descuento>, hoy: int): (r: seq<Descuento>)
    ensures |r| <= |ds|
    ensures forall i :: 0 <= i < |r| ==> r[i].dia == hoy && r[i] in ds
  {
    if ds == [] then []
    else DelDia(ds[..|ds| - 1], hoy) + (if ds[|ds| - 1].dia == hoy then [ds[|ds| - 1]] else [])
  }

  lemma {:induction false} DelDiaMiembro(ds: seq<Descuento>, hoy: int, d: Descuento)
    ensures d in DelDia(ds, hoy) <==> d in ds && d.dia == hoy
  {
    if ds != [] {
      DelDiaMiembro(ds[..|ds| - 1], hoy, d);
      assert ds == ds[..|ds| - 1] + [ds[|ds| - 1]];
    }
  }

  /** The position of the first discount that applies (`break` on the first match), `|ds|` when none does. */
  function IndiceDescuento(ds: seq<Descuento>, dep: string, sec: string, fam: string): (k: nat)
    ensures k <= |ds|
    ensures k < |ds| ==> Aplica(ds[k], dep, sec, fam)
    ensures forall j :: 0 <= j < k ==> !Aplica(ds[j], dep, sec, fam)
    decreases |ds|
  {
    if ds == [] then 0
    else if Aplica(ds[0], dep, sec, fam) then 0
    else 1 + IndiceDescuento(ds[1..], dep, sec, fam)
  }

  /** The loop over the day's discounts, stopping at the first that applies. */
  method BuscarDescuento(ds: seq<Descuento>, dep: string, sec: string, fam: string) returns (k: nat)
    ensures k == IndiceDescuento(ds, dep, sec, fam)
  {
    k := 0;
    while k < |ds|
      invariant k <= |ds|
      invariant IndiceDescuento(ds, dep, sec, fam) == k + IndiceDescuento(ds[k..], dep, sec, fam)
    {
      var d := ds[k];
      var aplicaPorDepartamento := Lleno(d.departamento) && d.departamento.value == dep;
      var aplicaPorSecciones := Lleno(d.secciones) && d.secciones.value == sec;
      var aplicaPorFamilia := Lleno(d.familia) && d.familia.value == fam;
      if (Lleno(d.departamento) && !Lleno(d.secciones) && !Lleno(d.familia) && aplicaPorDepartamento)
        || (Lleno(d.departamento) && Lleno(d.secciones) && !Lleno(d.familia) && aplicaPorDepartamento && aplicaPorSecciones)
        || (Lleno(d.departamento) && Lleno(d.secciones) && Lleno(d.familia) && aplicaPorDepartamento && aplicaPorSecciones && aplicaPorFamilia)
        || (!Lleno(d.departamento) && Lleno(d.secciones) && !Lleno(d.familia) && aplicaPorSecciones)
        || (!Lleno(d.departamento) && !Lleno(d.secciones) && Lleno(d.familia) && aplicaPorFamilia)
      {
        break;
      }
      assert ds[k..][1..] == ds[k + 1..];
      k := k + 1;
    }
  }

  // ------------------------------------------------------------ One row

  /** Whether the row differs from the stored article in stock, price or discount price. */
  predicate Difiere(a: Articulo, l: Lectura)
  {
    a.stock != l.stock || a.price != l.price || a.discountPrice != l.discountPrice
  }

  /**
   * The article the row leaves stored, given the article found by its code
   * (if any) and the day's discounts: flagged when new, when it differs, or
   * when a discount applies, whose price then replaces the discount price.
   */
  function Resultante(e: Option<Articulo>, l: Lectura, ds: seq<Descuento>): (a: Articulo)
    ensures a.code == Some(l.code) && a.stock == l.stock && a.price == l.price && a.otros == l.otros
    ensures a.modificado <==> e.None? || Difiere(e.value, l) || IndiceDescuento(ds, l.departamento, l.secciones, l.familia) < |ds|
    ensures var k := IndiceDescuento(ds, l.departamento, l.secciones, l.familia);
            (k < |ds| ==> a.discountPrice == l.price * (1.0 - ds[k].porcentaje / 100.0))
            && (k == |ds| ==> a.discountPrice == l.discountPrice)
  {
    var k := IndiceDescuento(ds, l.departamento, l.secciones, l.familia);
    var modificado := e.None? || Difiere(e.value, l) || k < |ds|;
    var descuento := if k < |ds| then l.price * (1.0 - ds[k].porcentaje / 100.0) else l.discountPrice;
    Articulo(Some(l.code), l.stock, l.price, descuento, modificado, l.departamento, l.secciones, l.familia, l.otros)
  }

  /**
   * Uploading the same row again finds nothing changed: the stored values
   * are a fixed point, and the flag is then set only by a discount.
   */
  lemma ResultanteEstable(e: Option<Articulo>, l: Lectura, ds: seq<Descuento>)
    ensures var a := Resultante(e, l, ds);
            var b := Resultante(Some(a), l, ds);
            b.(modificado := a.modificado) == a
            && (b.modificado <==> IndiceDescuento(ds, l.departamento, l.secciones, l.familia) < |ds|)
  {
  }

  /** The position of the first stored article with the code (`filter(code=...).first()`), `|t|` when there is none. */
  function Posicion(t: seq<Articulo>, code: string): (i: nat)
    ensures i <= |t|
    ensures i < |t| ==> t[i].code == Some(code)
    ensures forall j :: 0 <= j < i ==> t[j].code != Some(code)
    decreases |t|
  {
    if t == [] then 0
    else if t[0].code == Some(code) then 0
    else 1 + Posicion(t[1..], code)
  }

  /** No code is stored twice (the column is unique; several nulls are allowed). */
  predicate Unicos(t: seq<Articulo>)
  {
    forall i, j :: 0 <= i < j < |t| && t[i].code.Some? ==> t[i].code != t[j].code
  }

  /** One row: `update_or_create` creates at the end, updates the one match, or raises on several. */
  function Paso(t: seq<Articulo>, l: Lectura, ds: seq<Descuento>): Result<seq<Articulo>>
  {
    var i := Posicion(t, l.code);
    if i == |t| then Ok(t + [Resultante(None, l, ds)])
    else if Posicion(t[i + 1..], l.code) < |t| - (i + 1) then Err(VARIOS_CODIGOS)
    else Ok(t[i := Resultante(Some(t[i]), l, ds)])
  }

  /**
   * On a table with unique codes a row never fails, keeps the codes unique,
   * leaves every other article as it was and stores `Resultante` of what it
   * found under its code.
   */
  lemma PasoContrato(t: seq<Articulo>, l: Lectura, ds: seq<Descuento>)
    requires Unicos(t)
    ensures Paso(t, l, ds).Ok?
    ensures var r := Paso(t, l, ds).value;
            var i := Posicion(t, l.code);
            Unicos(r)
            && (i == |t| ==> r == t + [Resultante(None, l, ds)])
            && (i < |t| ==> |r| == |t| && r[i] == Resultante(Some(t[i]), l, ds)
                            && forall j :: 0 <= j < |t| && j != i ==> r[j] == t[j])
            && Posicion(r, l.code) < |r|
  {
    var i := Posicion(t, l.code);
    var r := Paso(t, l, ds);
    if i == |t| {
      assert r.value[|t|].code == Some(l.code);
    } else {
      var resto := t[i + 1..];
      forall q | 0 <= q < |resto| ensures resto[q].code != Some(l.code) {
        assert resto[q] == t[i + 1 + q];
      }
      assert r.value[i].code == Some(l.code);
    }
  }

  /** The rows one after the other; the first failure aborts the whole upload. */
  function Cargar(t: seq<Articulo>, ls: seq<Lectura>, ds: seq<Descuento>): Result<seq<Articulo>>
    decreases |ls|
  {
    if ls == [] then Ok(t)
    else
      match Paso(t, ls[0], ds)
      case Err(e) => Err(e)
      case Ok(t2) => Cargar(t2, ls[1..], ds)
  }

  /** A later row only changes articles of its own code. */
  lemma PasoConserva(t: seq<Articulo>, l: Lectura, ds: seq<Descuento>, c: string)
    requires Unicos(t) && c != l.code && Posicion(t, c) < |t|
    ensures Posicion(Paso(t, l, ds).value, c) < |Paso(t, l, ds).value|
  {
    PasoContrato(t, l, ds);
    var r := Paso(t, l, ds).value;
    var j := Posicion(t, c);
    assert r[j] == t[j];
  }

  /**
   * On a table with unique codes the upload succeeds, keeps codes unique,
   * and every row's code ends up stored.
   */
  lemma {:induction false} CargarContrato(t: seq<Articulo>, ls: seq<Lectura>, ds: seq<Descuento>)
    requires Unicos(t)
    ensures Cargar(t, ls, ds).Ok? && Unicos(Cargar(t, ls, ds).value)
    ensures forall k :: 0 <= k < |ls| ==> Posicion(Cargar(t, ls, ds).value, ls[k].code) < |Cargar(t, ls, ds).value|
    ensures forall c :: Posicion(t, c) < |t| ==> Posicion(Cargar(t, ls, ds).value, c) < |Cargar(t, ls, ds).value|
    decreases |ls|
  {
    if ls != [] {
      PasoContrato(t, ls[0], ds);
      var t2 := Paso(t, ls[0], ds).value;
      CargarContrato(t2, ls[1..], ds);
      var r := Cargar(t2, ls[1..], ds).value;
      assert Cargar(t, ls, ds) == Cargar(t2, ls[1..], ds);
      forall c | Posicion(t, c) < |t| ensures Posicion(r, c) < |r| {
        if c != ls[0].code {
          PasoConserva(t, ls[0], ds, c);
        }
      }
      forall k | 0 <= k < |ls| ensures Posicion(r, ls[k].code) < |r| {
        if k > 0 {
          assert ls[k] == ls[1..][k - 1];
        }
      }
    }
  }

  /** The normalised rows. */
  function Lecturas(filas: seq<Fila>): (ls: seq<Lectura>)
    ensures |ls| == |filas| && forall i :: 0 <= i < |filas| ==> ls[i] == Leer(filas[i])
  {
    seq(|filas|, i requires 0 <= i < |filas| => Leer(filas[i]))
  }

  /** `update_or_create_articles`: the table after the upload (unchanged on failure: the call is atomic). */
  function ActualizarArticulos(t: seq<Articulo>, filas: seq<Fila>, descuentos: seq<Descuento>, hoy: int): Result<seq<Articulo>>
  {
    Cargar(t, Lecturas(filas), DelDia(descuentos, hoy))
  }

  /** One row of the loop: the lookup, the flag, the discount and the write. */
  method ProcesarFila(t: seq<Articulo>, l: Lectura, ds: seq<Descuento>) returns (r: Result<seq<Articulo>>)
    ensures r == Paso(t, l, ds)
  {
    var i := Posicion(t, l.code);
    var modificado := false;
    if i < |t| {
      var existente := t[i];
      if existente.stock != l.stock || existente.price != l.price || existente.discountPrice != l.discountPrice {
        modificado := true;
      }
    } else {
      modificado := true;
    }
    var k := BuscarDescuento(ds, l.departamento, l.secciones, l.familia);
    var discountPrice := l.discountPrice;
    if k < |ds| {
      discountPrice := l.price * (1.0 - ds[k].porcentaje / 100.0);
      modificado := true;
    }
    var articulo := Articulo(Some(l.code), l.stock, l.price, discountPrice, modificado,
                             l.departamento, l.secciones, l.familia, l.otros);
    assert articulo == Resultante(if i < |t| then Some(t[i]) else None, l, ds);
    if i == |t| {
      return Ok(t + [articulo]);
    }
    if Posicion(t[i + 1..], l.code) < |t| - (i + 1) {
      return Err(VARIOS_CODIGOS);
    }
    r := Ok(t[i := articulo]);
  }

  /** `update_or_create_articles`. */
  method UpdateOrCreateArticles(t: seq<Articulo>, filas: seq<Fila>, descuentos: seq<Descuento>, hoy: int)
    returns (r: Result<seq<Articulo>>)
    ensures r == ActualizarArticulos(t, filas, descuentos, hoy)
  {
    var ds := DelDia(descuentos, hoy);
    var ls := Lecturas(filas);
    var actual := t;
    var i := 0;
    while i < |ls|
      invariant 0 <= i <= |ls|
      invariant Cargar(t, ls, ds) == Cargar(actual, ls[i..], ds)
    {
      var paso := ProcesarFila(actual, ls[i], ds);
      if paso.Err? {
        return Err(paso.error);
      }
      assert ls[i..][1..] == ls[i + 1..];
      actual := paso.value;
      i := i + 1;
    }
    r := Ok(actual);
  }

  // ------------------------------------------------------------ Flags

  /** Whether `articulosMoficados` returns the article. */
  predicate AEnviar(a: Articulo)
  {
    a.modificado && a.price > 0.0
  }

  /** `articulosMoficados`: the flagged articles with a positive price, in table order. */
  function ArticulosModificados(t: seq<Articulo>): (r: seq<Articulo>)
    ensures |r| <= |t|
    ensures forall i :: 0 <= i < |r| ==> AEnviar(r[i])
  {
    if t == [] then []
    else ArticulosModificados(t[..|t| - 1]) + (if AEnviar(t[|t| - 1]) then [t[|t| - 1]] else [])
  }

  lemma {:induction false} ArticulosModificadosMiembro(t: seq<Articulo>, a: Articulo)
    ensures a in ArticulosModificados(t) <==> a in t && a.modificado && a.price > 0.0
  {
    if t != [] {
      ArticulosModificadosMiembro(t[..|t| - 1], a);
      assert t == t[..|t| - 1] + [t[|t| - 1]];
    }
  }

  /** `marcarArticulosComoNoModificados`: every flag cleared, nothing else changed. */
  function MarcarNoModificados(t: seq<Articulo>): (r: seq<Articulo>)
    ensures |r| == |t|
    ensures forall i :: 0 <= i < |t| ==> !r[i].modificado && r[i].(modificado := t[i].modificado) == t[i]
  {
    seq(|t|, i requires 0 <= i < |t| => t[i].(modificado := false))
  }

  /** After clearing, nothing is left to send. */
  lemma NadaTrasMarcar(t: seq<Articulo>)
    ensures ArticulosModificados(MarcarNoModificados(t)) == []
  {
    var r := MarcarNoModificados(t);
    if ArticulosModificados(r) != [] {
      var a := ArticulosModificados(r)[0];
      ArticulosModificadosMiembro(r, a);
    }
  }

  // ------------------------------------------------------------ Sending

  /** One element of the `records` list of the payload. */
  datatype Registro = Registro(
    id: string, storeId: string, ean: string, name: Option<string>, description: Option<string>,
    trademark: Option<string>, price: real, discountPrice: real, stock: int, saleType: string,
    isAvailable: bool)

  /** The record of an article; `str(None)` is the text `"None"`. */
  function RegistroDe(a: Articulo): (r: Registro)
    ensures r.storeId == a.otros.storeId && r.price == a.price && r.discountPrice == a.discountPrice && r.stock == a.stock
    ensures a.otros.ean.None? ==> r.ean == "None"
  {
    Registro(a.otros.idArticulo, a.otros.storeId, if a.otros.ean.Some? then a.otros.ean.value else "None",
             a.otros.name, a.otros.description, a.otros.trademark, a.price, a.discountPrice, a.stock,
             a.otros.saleType, a.otros.isAvailable)
  }

  /** The stores of the articles, each once, in order of first appearance (the keys of the `defaultdict`). */
  function Tiendas(ms: seq<Articulo>): (ts: seq<string>)
    ensures forall i :: 0 <= i < |ms| ==> ms[i].otros.storeId in ts
    ensures forall i, j :: 0 <= i < j < |ts| ==> ts[i] != ts[j]
  {
    if ms == [] then []
    else
      var previas := Tiendas(ms[..|ms| - 1]);
      var s := ms[|ms| - 1].otros.storeId;
      assert forall i :: 0 <= i < |ms| - 1 ==> ms[i] == ms[..|ms| - 1][i];
      if s in previas then previas else previas + [s]
  }

  /** Every store listed has an article. */
  lemma {:induction false} TiendasTienenArticulos(ms: seq<Articulo>, s: string)
    requires s in Tiendas(ms)
    ensures RegistrosDe(ms, s) != []
  {
    var n := |ms| - 1;
    if ms[n].otros.storeId != s {
      TiendasTienenArticulos(ms[..n], s);
    }
  }

  /** The records of one store, in table order. */
  function RegistrosDe(ms: seq<Articulo>, s: string): (rs: seq<Registro>)
    ensures forall i :: 0 <= i < |rs| ==> rs[i].storeId == s
  {
    if ms == [] then []
    else RegistrosDe(ms[..|ms| - 1], s) + (if ms[|ms| - 1].otros.storeId == s then [RegistroDe(ms[|ms| - 1])] else [])
  }

  /** The number of records sent for the listed stores. */
  function Total(ms: seq<Articulo>, ts: seq<string>): nat
  {
    if ts == [] then 0 else Total(ms, ts[..|ts| - 1]) + |RegistrosDe(ms, ts[|ts| - 1])|
  }

  lemma {:induction false} TotalAgregar(ms: seq<Articulo>, x: Articulo, ts: seq<string>)
    requires forall i, j :: 0 <= i < j < |ts| ==> ts[i] != ts[j]
    ensures Total(ms + [x], ts) == Total(ms, ts) + (if x.otros.storeId in ts then 1 else 0)
  {
    assert (ms + [x])[..|ms|] == ms;
    if ts != [] {
      var n := |ts| - 1;
      TotalAgregar(ms, x, ts[..n]);
      assert ts == ts[..n] + [ts[n]];
    }
  }

  lemma {:induction false} TotalSinArticulos(ms: seq<Articulo>, ts: seq<string>, s: string)
    requires RegistrosDe(ms, s) == []
    ensures Total(ms, ts + [s]) == Total(ms, ts)
  {
    assert (ts + [s])[..|ts|] == ts;
  }

  /** Each modified article is sent exactly once: the groups together hold every article. */
  lemma {:induction false} GruposCompletos(ms: seq<Articulo>)
    ensures Total(ms, Tiendas(ms)) == |ms|
  {
    if ms != [] {
      var n := |ms| - 1;
      var previo := ms[..n];
      var x := ms[n];
      assert ms == previo + [x];
      GruposCompletos(previo);
      var ts := Tiendas(previo);
      TotalAgregar(previo, x, ts);
      if x.otros.storeId !in ts {
        if RegistrosDe(previo, x.otros.storeId) != [] {
          RegistrosOrigen(previo, x.otros.storeId);
        }
        TotalSinArticulos(previo, ts, x.otros.storeId);
        assert Total(ms, ts + [x.otros.storeId]) == Total(ms, ts) + |RegistrosDe(ms, x.otros.storeId)|;
        assert RegistrosDe(ms, x.otros.storeId) == [RegistroDe(x)];
      }
    }
  }

  /** A store with records has one of its articles listed. */
  lemma {:induction false} RegistrosOrigen(ms: seq<Articulo>, s: string)
    requires RegistrosDe(ms, s) != []
    ensures s in Tiendas(ms)
  {
    var n := |ms| - 1;
    if ms[n].otros.storeId != s {
      RegistrosOrigen(ms[..n], s);
    }
  }

  /** What the POST of one store answers: a status and its text, or the exception raised. */
  datatype Respuesta = Respuesta(status: int, texto: string) | Falla(mensaje: string)

  /** An `APILogRappi` row. */
  datatype Log = Log(storeId: string, status: int, texto: string)

  /** The log row of an attempt: the answer, or status 500 with the exception text. */
  function LogDe(s: string, resp: Respuesta): (g: Log)
    ensures g.storeId == s
    ensures resp.Falla? ==> g.status == 500 && g.texto == resp.mensaje
    ensures resp.Respuesta? ==> g.status == resp.status && g.texto == resp.texto
  {
    match resp
    case Respuesta(st, tx) => Log(s, st, tx)
    case Falla(m) => Log(s, 500, m)
  }

  predicate Exito(resp: Respuesta)
  {
    resp.Respuesta? && (resp.status == 200 || resp.status == 201)
  }

  /** `filter(store_id=s, modificado=True).update(modificado=False)`. */
  function Limpiar(t: seq<Articulo>, s: string): (r: seq<Articulo>)
    ensures |r| == |t|
    ensures forall i :: 0 <= i < |t| ==> r[i] == if t[i].otros.storeId == s then t[i].(modificado := false) else t[i]
  {
    seq(|t|, i requires 0 <= i < |t| => if t[i].otros.storeId == s then t[i].(modificado := false) else t[i])
  }

  datatype Envio = Envio(tabla: seq<Articulo>, logs: seq<Log>)

  /** The loop over the stores, sending each group and clearing on success. */
  function EnviarTiendas(t: seq<Articulo>, ms: seq<Articulo>, ts: seq<string>, api: (string, seq<Registro>) -> Respuesta): Envio
    decreases |ts|
  {
    if ts == [] then Envio(t, [])
    else
      var resp := api(ts[0], RegistrosDe(ms, ts[0]));
      var t2 := if Exito(resp) then Limpiar(t, ts[0]) else t;
      var resto := EnviarTiendas(t2, ms, ts[1..], api);
      Envio(resto.tabla, [LogDe(ts[0], resp)] + resto.logs)
  }

  /** Whether the store is listed and its POST succeeded. */
  predicate Enviada(s: string, ms: seq<Articulo>, ts: seq<string>, api: (string, seq<Registro>) -> Respuesta)
  {
    s in ts && Exito(api(s, RegistrosDe(ms, s)))
  }

  /**
   * Every listed store is tried once and logged, in order; an article's flag
   * is cleared exactly when its store's POST answered 200 or 201, whatever
   * its price, and nothing else changes.
   */
  lemma EnviarTiendasContrato(t: seq<Articulo>, ms: seq<Articulo>, ts: seq<string>, api: (string, seq<Registro>) -> Respuesta)
    ensures var e := EnviarTiendas(t, ms, ts, api);
            |e.logs| == |ts| && |e.tabla| == |t|
            && (forall k :: 0 <= k < |ts| ==> e.logs[k] == LogDe(ts[k], api(ts[k], RegistrosDe(ms, ts[k]))))
            && (forall i :: 0 <= i < |t| ==>
                  e.tabla[i] == if Enviada(t[i].otros.storeId, ms, ts, api) then t[i].(modificado := false) else t[i])
  {
    EnviarTiendasLogs(t, ms, ts, api);
    EnviarTiendasTabla(t, ms, ts, api);
  }

  /** One log per listed store, in order. */
  lemma {:induction false} EnviarTiendasLogs(t: seq<Articulo>, ms: seq<Articulo>, ts: seq<string>, api: (string, seq<Registro>) -> Respuesta)
    ensures var e := EnviarTiendas(t, ms, ts, api);
            |e.logs| == |ts|
            && forall k :: 0 <= k < |ts| ==> e.logs[k] == LogDe(ts[k], api(ts[k], RegistrosDe(ms, ts[k])))
    decreases |ts|
  {
    if ts != [] {
      var resp := api(ts[0], RegistrosDe(ms, ts[0]));
      var t2 := if Exito(resp) then Limpiar(t, ts[0]) else t;
      EnviarTiendasLogs(t2, ms, ts[1..], api);
      var e := EnviarTiendas(t, ms, ts, api);
      forall k | 0 <= k < |ts| ensures e.logs[k] == LogDe(ts[k], api(ts[k], RegistrosDe(ms, ts[k]))) {
        if k > 0 { assert ts[k] == ts[1..][k - 1]; }
      }
    }
  }

  /** An article's flag is cleared exactly when its store was sent successfully. */
  lemma {:induction false} EnviarTiendasTabla(t: seq<Articulo>, ms: seq<Articulo>, ts: seq<string>, api: (string, seq<Registro>) -> Respuesta)
    ensures var e := EnviarTiendas(t, ms, ts, api);
            |e.tabla| == |t|
            && forall i :: 0 <= i < |t| ==>
                 e.tabla[i] == if Enviada(t[i].otros.storeId, ms, ts, api) then t[i].(modificado := false) else t[i]
    decreases |ts|
  {
    if ts != [] {
      var resp := api(ts[0], RegistrosDe(ms, ts[0]));
      var t2 := if Exito(resp) then Limpiar(t, ts[0]) else t;
      EnviarTiendasTabla(t2, ms, ts[1..], api);
      var e := EnviarTiendas(t, ms, ts, api);
      assert e.tabla == EnviarTiendas(t2, ms, ts[1..], api).tabla;
      forall i | 0 <= i < |t|
        ensures e.tabla[i] == if Enviada(t[i].otros.storeId, ms, ts, api) then t[i].(modificado := false) else t[i]
      {
        var s := t[i].otros.storeId;
        assert t2[i].otros.storeId == s;
        assert s in ts <==> s == ts[0] || s in ts[1..] by {
          assert ts == [ts[0]] + ts[1..];
        }
      }
    }
  }

  /** `send_modified_articles`: with nothing flagged, one log for all stores; otherwise one attempt per store. */
  function SendModifiedArticles(t: seq<Articulo>, api: (string, seq<Registro>) -> Respuesta): Envio
  {
    var ms := ArticulosModificados(t);
    if ms == [] then Envio(t, [Log(TODAS, 200, NADA_QUE_ENVIAR)])
    else EnviarTiendas(t, ms, Tiendas(ms), api)
  }

  /**
   * With nothing to send the table is untouched and a single 200 log is
   * written; otherwise one log per store with a flagged article, and only
   * stores answered 200/201 get their flags cleared.
   */
  lemma SendContrato(t: seq<Articulo>, api: (string, seq<Registro>) -> Respuesta)
    ensures var ms := ArticulosModificados(t);
            var e := SendModifiedArticles(t, api);
            (ms == [] ==> e == Envio(t, [Log(TODAS, 200, NADA_QUE_ENVIAR)]))
            && (ms != [] ==>
                  |e.logs| == |Tiendas(ms)| && |e.tabla| == |t|
                  && forall i :: 0 <= i < |t| ==>
                       e.tabla[i] == if Enviada(t[i].otros.storeId, ms, Tiendas(ms), api) then t[i].(modificado := false) else t[i])
  {
    var ms := ArticulosModificados(t);
    if ms != [] {
      EnviarTiendasContrato(t, ms, Tiendas(ms), api);
    }
  }

  /** The grouping loop: the stores in first-appearance order and each store's records. */
  method Agrupar(ms: seq<Articulo>) returns (ts: seq<string>, grupos: map<string, seq<Registro>>)
    ensures ts == Tiendas(ms)
    ensures forall s :: s in ts ==> s in grupos && grupos[s] == RegistrosDe(ms, s)
  {
    ts := [];
    grupos := map[];
    var i := 0;
    while i < |ms|
      invariant 0 <= i <= |ms|
      invariant Agrupados(ms[..i], ts, grupos)
    {
      ts, grupos := AgruparArticulo(ms[..i], ms[i], ts, grupos);
      PrefijoMas(ms, i);
      i := i + 1;
    }
    assert ms[..i] == ms;
  }

  /** The grouping so far: the stores in first-appearance order, each with its records. */
  ghost predicate Agrupados(ms: seq<Articulo>, ts: seq<string>, grupos: map<string, seq<Registro>>)
  {
    ts == Tiendas(ms)
    && (forall s :: s in grupos <==> s in ts)
    && (forall s :: s in ts ==> grupos[s] == RegistrosDe(ms, s))
  }

  /** One article of the grouping loop: its store is listed if new, and its record appended to the store's group. */
  method AgruparArticulo(ms: seq<Articulo>, a: Articulo, ts: seq<string>, grupos: map<string, seq<Registro>>)
    returns (ts2: seq<string>, grupos2: map<string, seq<Registro>>)
    requires Agrupados(ms, ts, grupos)
    ensures Agrupados(ms + [a], ts2, grupos2)
  {
    var s := a.otros.storeId;
    TiendasMas(ms, a);
    ts2, grupos2 := ts, grupos;
    if s !in grupos {
      ts2 := ts + [s];
      grupos2 := grupos[s := []];
      assert RegistrosDe(ms, s) == [] by {
        if RegistrosDe(ms, s) != [] { RegistrosOrigen(ms, s); }
      }
    }
    grupos2 := grupos2[s := grupos2[s] + [RegistroDe(a)]];
    forall x | x in ts2 ensures grupos2[x] == RegistrosDe(ms + [a], x) {
      RegistrosMas(ms, a, x);
    }
  }

  lemma PrefijoMas(ms: seq<Articulo>, i: nat)
    requires i < |ms|
    ensures ms[..i] + [ms[i]] == ms[..i + 1]
  {
  }

  lemma TiendasMas(ms: seq<Articulo>, a: Articulo)
    ensures Tiendas(ms + [a]) == if a.otros.storeId in Tiendas(ms) then Tiendas(ms) else Tiendas(ms) + [a.otros.storeId]
  {
    assert (ms + [a])[..|ms|] == ms;
  }

  lemma RegistrosMas(ms: seq<Articulo>, a: Articulo, s: string)
    ensures RegistrosDe(ms + [a], s) == RegistrosDe(ms, s) + (if a.otros.storeId == s then [RegistroDe(a)] else [])
  {
    assert (ms + [a])[..|ms|] == ms;
  }

  /** One store's POST answered: the flags cleared on 200/201, and the log row. */
  method EnviarTienda(tabla: seq<Articulo>, storeId: string, respuesta: Respuesta) returns (t2: seq<Articulo>, log: Log)
    ensures t2 == (if Exito(respuesta) then Limpiar(tabla, storeId) else tabla)
    ensures log == LogDe(storeId, respuesta)
  {
    t2 := tabla;
    if respuesta.Respuesta? && (respuesta.status == 200 || respuesta.status == 201) {
      t2 := Limpiar(tabla, storeId);
      log := Log(storeId, respuesta.status, respuesta.texto);
    } else if respuesta.Respuesta? {
      log := Log(storeId, respuesta.status, respuesta.texto);
    } else {
      log := Log(storeId, 500, respuesta.mensaje);
    }
  }

  /** One unfolding of the store loop. */
  lemma EnviarTiendasPaso(t: seq<Articulo>, ms: seq<Articulo>, ts: seq<string>, api: (string, seq<Registro>) -> Respuesta)
    requires ts != []
    ensures var resp := api(ts[0], RegistrosDe(ms, ts[0]));
            var resto := EnviarTiendas(if Exito(resp) then Limpiar(t, ts[0]) else t, ms, ts[1..], api);
            EnviarTiendas(t, ms, ts, api) == Envio(resto.tabla, [LogDe(ts[0], resp)] + resto.logs)
  {
  }

  /** The store loop's invariant carried over one store. */
  lemma EnviarTiendasAvanza(t: seq<Articulo>, ms: seq<Articulo>, ts: seq<string>, k: nat, antes: seq<Articulo>,
                            logs: seq<Log>, tabla: seq<Articulo>, log: Log, api: (string, seq<Registro>) -> Respuesta)
    requires k < |ts|
    requires var fin := EnviarTiendas(antes, ms, ts[k..], api);
             Envio(fin.tabla, logs + fin.logs) == EnviarTiendas(t, ms, ts, api)
    requires var resp := api(ts[k], RegistrosDe(ms, ts[k]));
             tabla == (if Exito(resp) then Limpiar(antes, ts[k]) else antes) && log == LogDe(ts[k], resp)
    ensures var fin := EnviarTiendas(tabla, ms, ts[k + 1..], api);
            Envio(fin.tabla, (logs + [log]) + fin.logs) == EnviarTiendas(t, ms, ts, api)
  {
    EnviarTiendasPaso(antes, ms, ts[k..], api);
    assert ts[k..][1..] == ts[k + 1..];
    var fin := EnviarTiendas(tabla, ms, ts[k + 1..], api);
    assert (logs + [log]) + fin.logs == logs + ([log] + fin.logs);
  }

  /** `send_modified_articles`. */
  method SendModified(t: seq<Articulo>, api: (string, seq<Registro>) -> Respuesta) returns (r: Envio)
    ensures r == SendModifiedArticles(t, api)
  {
    var ms := ArticulosModificados(t);
    if ms == [] {
      return Envio(t, [Log(TODAS, 200, NADA_QUE_ENVIAR)]);
    }
    var ts, grupos := Agrupar(ms);
    var tabla := t;
    var logs: seq<Log> := [];
    var k := 0;
    while k < |ts|
      invariant 0 <= k <= |ts|
      invariant var fin := EnviarTiendas(tabla, ms, ts[k..], api);
                Envio(fin.tabla, logs + fin.logs) == EnviarTiendas(t, ms, ts, api)
    {
      var storeId := ts[k];
      var respuesta := api(storeId, grupos[storeId]);
      var log;
      ghost var antes := tabla;
      tabla, log := EnviarTienda(tabla, storeId, respuesta);
      EnviarTiendasAvanza(t, ms, ts, k, antes, logs, tabla, log, api);
      logs := logs + [log];
      k := k + 1;
    }
    r := Envio(tabla, logs);
  }
}

/**
 * The catalogue synchronisation of `automatizaciones/service/rappi_sync.py`:
 * Rappi's SKUs are listed page by page, the local articles are split by
 * whether their EAN is one of them, and the present ones are switched on or
 * off in Rappi according to their stock.
 *
 * Every HTTP request is a parameter: a function from the request's arguments
 * and the attempt number (0, then 1 for the single retry) to what the server
 * answered, or the exception `requests` raised.
 */
module RappiSync {
  import opened Resultados
  import opened Textos

  /** The size of an availability query and of a switch batch. */
  const LOTE := 200
  const PREFIJO_HTTP := "HTTPError "
  const TURN_ON := "turn_on_"
  const TURN_OFF := "turn_off_"
  /** The exception `r.json()` raises on a body that is not JSON. */
  const ERROR_JSON := "JSONDecodeError"

  /** An HTTP answer: a status and a decoded body, or the exception raised. */
  datatype Http<T> = Http(status: int, cuerpo: T) | Excepcion(mensaje: string)

  /** The answer used: the retry's when the first attempt answered 5xx. */
  function Efectiva<T>(primera: Http<T>, segunda: Http<T>): (h: Http<T>)
    ensures primera.Http? && primera.status >= 500 ==> h == segunda
    ensures !(primera.Http? && primera.status >= 500) ==> h == primera
  {
    if primera.Http? && primera.status >= 500 then segunda else primera
  }

  /** `raise_for_status()`: a 4xx or 5xx answer, like an exception, becomes an error. */
  function Aceptar<T>(h: Http<T>): (r: Result<T>)
    ensures r.Ok? <==> h.Http? && h.status < 400
    ensures r.Ok? ==> r.value == h.cuerpo
  {
    if h.Excepcion? then Err(h.mensaje)
    else if h.status >= 400 then Err(PREFIJO_HTTP + IntATexto(h.status))
    else Ok(h.cuerpo)
  }

  /** A request with its one retry, as the program issues it. */
  function Pedir<T>(primera: Http<T>, segunda: Http<T>): Result<T>
  {
    Aceptar(Efectiva(primera, segunda))
  }

  /** `_normaliza_ean`: `(ean or "").strip()`. */
  function NormalizaEan(ean: Option<string>): (e: string)
    ensures ean.None? ==> e == ""
    ensures ean.Some? ==> e == Strip(ean.value)
    ensures Strip(e) == e
  {
    StripIdempotente(ean.GetOr(""));
    Strip(ean.GetOr(""))
  }

  // ------------------------------------------------------------ Batches

  /** `[xs[i:i+n] for i in range(0, len(xs), n)]`. */
  function Lotes<T>(xs: seq<T>, n: nat): (ls: seq<seq<T>>)
    requires n > 0
    ensures xs == [] <==> ls == []
    decreases |xs|
  {
    if xs == [] then []
    else if |xs| <= n then [xs]
    else [xs[..n]] + Lotes(xs[n..], n)
  }

  function Concatenar<T>(ls: seq<seq<T>>): seq<T>
    decreases |ls|
  {
    if ls == [] then [] else ls[0] + Concatenar(ls[1..])
  }

  /** The batches are consecutive: together they are the list, each holds 1 to `n` items, all but the last exactly `n`. */
  lemma LotesContrato<T>(xs: seq<T>, n: nat)
    requires n > 0
    ensures Concatenar(Lotes(xs, n)) == xs
    ensures forall k :: 0 <= k < |Lotes(xs, n)| ==> 0 < |Lotes(xs, n)[k]| <= n
    ensures forall k :: 0 <= k < |Lotes(xs, n)| - 1 ==> |Lotes(xs, n)[k]| == n
  {
    LotesConcatenan(xs, n);
    LotesTamanos(xs, n);
  }

  /** Concatenated, the batches give back the list. */
  lemma {:induction false} LotesConcatenan<T>(xs: seq<T>, n: nat)
    requires n > 0
    ensures Concatenar(Lotes(xs, n)) == xs
    decreases |xs|
  {
    if xs != [] {
      if |xs| <= n {
        assert Concatenar(Lotes(xs, n)) == xs + Concatenar([]);
      } else {
        var ls := Lotes(xs, n);
        assert ls[0] == xs[..n] && ls[1..] == Lotes(xs[n..], n);
        calc {
          Concatenar(ls);
          xs[..n] + Concatenar(Lotes(xs[n..], n));
          { LotesConcatenan(xs[n..], n); }
          xs[..n] + xs[n..];
          xs;
        }
      }
    }
  }

  /** Each batch holds 1 to `n` items, all but the last exactly `n`. */
  lemma {:induction false} LotesTamanos<T>(xs: seq<T>, n: nat)
    requires n > 0
    ensures forall k :: 0 <= k < |Lotes(xs, n)| ==> 0 < |Lotes(xs, n)[k]| <= n
    ensures forall k :: 0 <= k < |Lotes(xs, n)| - 1 ==> |Lotes(xs, n)[k]| == n
    decreases |xs|
  {
    if xs != [] && |xs| > n {
      LotesTamanos(xs[n..], n);
      var ls := Lotes(xs, n);
      assert ls[1..] == Lotes(xs[n..], n);
      forall k | 1 <= k < |ls| ensures ls[k] == Lotes(xs[n..], n)[k - 1] {
      }
    }
  }

  // ------------------------------------------------------------ 1) Catalogue paging

  /** An item of a catalogue page: only its `sku` is read. */
  datatype Item = Item(sku: Option<string>)

  /** A value of a JSON object's key: a list of items or anything else. */
  datatype Valor = VLista(items: seq<Item>) | VOtro

  /** A catalogue page's body: a list, an object, any other JSON, or a body that is not JSON. */
  datatype Pagina = PLista(items: seq<Item>) | PObjeto(campos: map<string, Valor>) | POtro | PIlegible

  /** The keys looked at, in order, for the page's array. */
  const CLAVES_ITEMS := ["items", "data", "results", "products"]

  /** The first of `claves` whose value is a list. */
  function PrimeraLista(campos: map<string, Valor>, claves: seq<string>): (items: seq<Item>)
    decreases |claves|
  {
    if claves == [] then []
    else if claves[0] in campos && campos[claves[0]].VLista? then campos[claves[0]].items
    else PrimeraLista(campos, claves[1..])
  }

  /** The items of a page. */
  function ItemsDe(p: Pagina): (items: seq<Item>)
    ensures p.PLista? ==> items == p.items
    ensures p.POtro? ==> items == []
  {
    match p
    case PLista(items) => items
    case PObjeto(campos) => PrimeraLista(campos, CLAVES_ITEMS)
    case _ => []
  }

  /** `(it.get("sku") or "").strip()` for each item of a page. */
  function SkusPagina(items: seq<Item>): (r: seq<string>)
    ensures |r| == |items| && forall k :: 0 <= k < |items| ==> r[k] == NormalizaEan(items[k].sku)
  {
    seq(|items|, k requires 0 <= k < |items| => NormalizaEan(items[k].sku))
  }

  /** The non-empty ones, in order (`if sku: skus.append(sku)`). */
  function NoVacios(xs: seq<string>): (r: seq<string>)
    ensures |r| <= |xs|
    ensures forall k :: 0 <= k < |r| ==> r[k] != "" && r[k] in xs
  {
    if xs == [] then []
    else NoVacios(xs[..|xs| - 1]) + (if xs[|xs| - 1] != "" then [xs[|xs| - 1]] else [])
  }

  /** The offsets requested and the outcome of the paging loop. */
  datatype Paginado = Paginado(offsets: seq<int>, skus: Result<seq<string>>)

  /** Requests and SKUs gathered before `p`: an error in `p` stays the outcome. */
  function Prefijar(offsets: seq<int>, skus: seq<string>, p: Paginado): Paginado
  {
    Paginado(offsets + p.offsets, if p.skus.Err? then p.skus else Ok(skus + p.skus.value))
  }

  lemma PrefijarPrefijar(o1: seq<int>, s1: seq<string>, o2: seq<int>, s2: seq<string>, p: Paginado)
    ensures Prefijar(o1, s1, Prefijar(o2, s2, p)) == Prefijar(o1 + o2, s1 + s2, p)
  {
    assert o1 + (o2 + p.offsets) == (o1 + o2) + p.offsets;
    if p.skus.Ok? {
      assert s1 + (s2 + p.skus.value) == (s1 + s2) + p.skus.value;
    }
  }

  /**
   * The page at `offset` after the retry and `raise_for_status()`: one
   * normalised SKU text per item, or `JSONDecodeError` from `r.json()` when
   * the accepted body is not JSON.
   */
  function PaginaEn(offset: int, limit: int, get: (int, int, nat) -> Http<Pagina>): (r: Result<seq<string>>)
    ensures Pedir(get(offset, limit, 0), get(offset, limit, 1)).Err?
            ==> r == Err(Pedir(get(offset, limit, 0), get(offset, limit, 1)).error)
    ensures r.Err? <==> Pedir(get(offset, limit, 0), get(offset, limit, 1)).Err? || Pedir(get(offset, limit, 0), get(offset, limit, 1)).value.PIlegible?
    ensures r.Ok? ==> r.value == SkusPagina(ItemsDe(Pedir(get(offset, limit, 0), get(offset, limit, 1)).value))
  {
    var r := Pedir(get(offset, limit, 0), get(offset, limit, 1));
    if r.Err? then Err(r.error)
    else if r.value.PIlegible? then Err(ERROR_JSON)
    else Ok(SkusPagina(ItemsDe(r.value)))
  }

  /**
   * From page `i` on, whose offset is `offset` (`i * limit`): the request,
   * then a stop at an empty page or a short one, or after `pages` pages.
   * `pagina(offset)` is one SKU text per item of the page, or the error raised.
   */
  function Paginas(i: nat, offset: int, pages: nat, limit: int, pagina: int -> Result<seq<string>>): (p: Paginado)
    decreases pages - i
  {
    if i >= pages then Paginado([], Ok([]))
    else
      var r := pagina(offset);
      if r.Err? then Paginado([offset], Err(r.error))
      else if r.value == [] then Paginado([offset], Ok([]))
      else if |r.value| < limit then Paginado([offset], Ok(NoVacios(r.value)))
      else Prefijar([offset], NoVacios(r.value), Paginas(i + 1, offset + limit, pages, limit, pagina))
  }

  /** The page reader of `rappi_list_products_skus`. */
  function Lector(limit: int, get: (int, int, nat) -> Http<Pagina>): int -> Result<seq<string>>
  {
    o => PaginaEn(o, limit, get)
  }

  /** `[str(s).strip() for s in skus if s is not None]`. */
  function Normalizados(skus: seq<string>): (r: seq<string>)
    ensures |r| == |skus| && forall k :: 0 <= k < |skus| ==> r[k] == Strip(skus[k])
  {
    seq(|skus|, k requires 0 <= k < |skus| => Strip(skus[k]))
  }

  /** `rappi_list_products_skus`. */
  function ListaSkus(pages: nat, limit: int, get: (int, int, nat) -> Http<Pagina>): Paginado
  {
    var p := Paginas(0, 0, pages, limit, Lector(limit, get));
    Paginado(p.offsets, if p.skus.Err? then p.skus else Ok(Normalizados(p.skus.value)))
  }

  /** `n` offsets `limit` apart from `offset`: the `k`-th is `offset + k * limit`. */
  function Progresion(offset: int, limit: int, n: nat): (r: seq<int>)
    ensures |r| == n
    decreases n
  {
    if n == 0 then [] else [offset] + Progresion(offset + limit, limit, n - 1)
  }

  lemma {:induction false} ProgresionIndice(offset: int, limit: int, n: nat, k: nat)
    requires k < n
    ensures Progresion(offset, limit, n)[k] == offset + k * limit
    decreases n
  {
    if k > 0 {
      ProgresionIndice(offset + limit, limit, n - 1, k - 1);
      assert offset + limit + (k - 1) * limit == offset + k * limit;
    }
  }

  /** At most `pages` pages are requested, at offsets `limit` apart starting from the first. */
  lemma {:induction false} PaginasOffsets(i: nat, offset: int, pages: nat, limit: int, pagina: int -> Result<seq<string>>)
    ensures var p := Paginas(i, offset, pages, limit, pagina);
            (i >= pages ==> p.offsets == [])
            && (i < pages ==> 1 <= |p.offsets| <= pages - i)
            && p.offsets == Progresion(offset, limit, |p.offsets|)
    decreases pages - i
  {
    if i < pages {
      var r := pagina(offset);
      if r.Ok? && r.value != [] && |r.value| >= limit {
        var resto := Paginas(i + 1, offset + limit, pages, limit, pagina);
        PaginasOffsets(i + 1, offset + limit, pages, limit, pagina);
        assert Paginas(i, offset, pages, limit, pagina).offsets == [offset] + resto.offsets;
        assert Progresion(offset, limit, |resto.offsets| + 1)
            == [offset] + Progresion(offset + limit, limit, |resto.offsets|);
      }
    }
  }

  /** Every SKU gathered is non-empty and has whatever property all page texts have. */
  lemma {:induction false} PaginasSkus(i: nat, offset: int, pages: nat, limit: int, pagina: int -> Result<seq<string>>,
                                       prop: string -> bool)
    requires forall o, k :: pagina(o).Ok? && 0 <= k < |pagina(o).value| ==> prop(pagina(o).value[k])
    ensures var p := Paginas(i, offset, pages, limit, pagina);
            p.skus.Ok? ==> forall k :: 0 <= k < |p.skus.value| ==> p.skus.value[k] != "" && prop(p.skus.value[k])
    decreases pages - i
  {
    if i < pages {
      var r := pagina(offset);
      if r.Ok? && r.value != [] && |r.value| >= limit {
        PaginasSkus(i + 1, offset + limit, pages, limit, pagina, prop);
        var resto := Paginas(i + 1, offset + limit, pages, limit, pagina);
        var a := NoVacios(r.value);
        if resto.skus.Ok? {
          var todo := a + resto.skus.value;
          forall k | 0 <= k < |todo| ensures todo[k] != "" && prop(todo[k]) {
            if k >= |a| {
              assert todo[k] == resto.skus.value[k - |a|];
            } else {
              assert todo[k] == a[k];
            }
          }
        }
      }
    }
  }

  /** The paging continues past a page only when that page was full. */
  lemma PaginaCorta(i: nat, offset: int, pages: nat, limit: int, pagina: int -> Result<seq<string>>)
    requires i < pages
    requires pagina(offset).Ok? && |pagina(offset).value| < limit
    ensures Paginas(i, offset, pages, limit, pagina).offsets == [offset]
  {
  }

  predicate Limpio(x: string)
  {
    Strip(x) == x
  }

  /**
   * The final normalisation changes nothing, the SKUs being already
   * stripped, and no SKU returned is empty.
   */
  lemma ListaSkusNormalizada(pages: nat, limit: int, get: (int, int, nat) -> Http<Pagina>)
    ensures ListaSkus(pages, limit, get) == Paginas(0, 0, pages, limit, Lector(limit, get))
    ensures var p := ListaSkus(pages, limit, get);
            p.skus.Ok? ==> forall k :: 0 <= k < |p.skus.value| ==> p.skus.value[k] != "" && Limpio(p.skus.value[k])
  {
    var pagina := Lector(limit, get);
    forall o, k | pagina(o).Ok? && 0 <= k < |pagina(o).value| ensures Limpio(pagina(o).value[k]) {
    }
    PaginasSkus(0, 0, pages, limit, pagina, Limpio);
    var p := Paginas(0, 0, pages, limit, pagina);
    if p.skus.Ok? {
      assert Normalizados(p.skus.value) == p.skus.value;
    }
  }

  /** The SKUs kept from a page. */
  method Agregar(skus: seq<string>, textos: seq<string>) returns (r: seq<string>)
    ensures r == skus + NoVacios(textos)
  {
    r := skus;
    var j := 0;
    while j < |textos|
      invariant 0 <= j <= |textos|
      invariant r == skus + NoVacios(textos[..j])
    {
      if textos[j] != "" {
        r := r + [textos[j]];
      }
      assert textos[..j + 1][..j] == textos[..j];
      j := j + 1;
    }
    assert textos[..j] == textos;
  }

  /** Nothing gathered before: the outcome is unchanged. */
  lemma PrefijarVacio(p: Paginado)
    ensures Prefijar([], [], p) == p
  {
    assert [] + p.offsets == p.offsets;
    if p.skus.Ok? {
      assert [] + p.skus.value == p.skus.value;
    }
  }

  /** A full page: its SKUs come before those of the following pages. */
  lemma PaginasPaso(i: nat, offset: int, pages: nat, limit: int, pagina: int -> Result<seq<string>>)
    requires i < pages && pagina(offset).Ok? && pagina(offset).value != [] && |pagina(offset).value| >= limit
    ensures Paginas(i, offset, pages, limit, pagina)
            == Prefijar([offset], NoVacios(pagina(offset).value), Paginas(i + 1, offset + limit, pages, limit, pagina))
  {
  }

  /**
   * The paging loop of `rappi_list_products_skus`, which accumulates the
   * SKUs page by page; `pagina(offset)` is the request with its retry.
   */
  method Paginar(pages: nat, limit: int, pagina: int -> Result<seq<string>>) returns (r: Paginado)
    ensures r == Paginas(0, 0, pages, limit, pagina)
  {
    var skus: seq<string> := [];
    var offsets: seq<int> := [];
    var i := 0;
    var offset := 0;
    PrefijarVacio(Paginas(0, 0, pages, limit, pagina));
    while i < pages
      invariant 0 <= i <= pages
      invariant Paginas(0, 0, pages, limit, pagina) == Prefijar(offsets, skus, Paginas(i, offset, pages, limit, pagina))
    {
      var textos := pagina(offset);
      if textos.Err? {
        return Paginado(offsets + [offset], Err(textos.error));
      }
      if textos.value == [] {
        assert skus + [] == skus;
        return Paginado(offsets + [offset], Ok(skus));
      }
      var mas := Agregar(skus, textos.value);
      if |textos.value| < limit {
        return Paginado(offsets + [offset], Ok(mas));
      }
      PaginasPaso(i, offset, pages, limit, pagina);
      PrefijarPrefijar(offsets, skus, [offset], NoVacios(textos.value), Paginas(i + 1, offset + limit, pages, limit, pagina));
      offsets, skus := offsets + [offset], mas;
      i := i + 1;
      offset := offset + limit;
    }
    assert offsets + [] == offsets && skus + [] == skus;
    r := Paginado(offsets, Ok(skus));
  }

  /** The final `[str(s).strip() for s in skus if s is not None]`. */
  method NormalizarSkus(skus: seq<string>) returns (limpios: seq<string>)
    ensures limpios == Normalizados(skus)
  {
    ghost var todos := Normalizados(skus);
    limpios := [];
    var j := 0;
    while j < |skus|
      invariant 0 <= j <= |skus|
      invariant limpios == todos[..j]
    {
      assert todos[..j + 1] == todos[..j] + [todos[j]];
      limpios := limpios + [Strip(skus[j])];
      j := j + 1;
    }
    assert todos[..j] == todos;
  }

  /** `rappi_list_products_skus`: the paging, then the final normalisation. */
  method ListProductsSkus(pages: nat, limit: int, get: (int, int, nat) -> Http<Pagina>) returns (r: Paginado)
    ensures r == ListaSkus(pages, limit, get)
  {
    r := Paginar(pages, limit, Lector(limit, get));
    if r.skus.Ok? {
      var limpios := NormalizarSkus(r.skus.value);
      r := r.(skus := Ok(limpios));
    }
  }

  // ------------------------------------------------------------ 2) Split by EAN

  /** The fields of an `Articulos` row the synchronisation reads. */
  datatype Art = Art(ean: Option<string>, stock: int, storeId: string)

  /** The two lists: the articles whose EAN is a Rappi SKU, and the others. */
  datatype Division = Division(presentes: seq<Art>, faltantes: seq<Art>)

  /** The articles split by a test, each list in table order. */
  function Separar(arts: seq<Art>, enRappi: Art -> bool): (d: Division)
    ensures |d.presentes| + |d.faltantes| == |arts|
    ensures forall k :: 0 <= k < |d.presentes| ==> enRappi(d.presentes[k])
    ensures forall k :: 0 <= k < |d.faltantes| ==> !enRappi(d.faltantes[k])
  {
    if arts == [] then Division([], [])
    else
      var previa := Separar(arts[..|arts| - 1], enRappi);
      var a := arts[|arts| - 1];
      if enRappi(a) then Division(previa.presentes + [a], previa.faltantes)
      else Division(previa.presentes, previa.faltantes + [a])
  }

  /** Each article lands in exactly one list: the two lists are the table split by the test. */
  lemma {:induction false} SepararParticion(arts: seq<Art>, enRappi: Art -> bool)
    ensures multiset(Separar(arts, enRappi).presentes) + multiset(Separar(arts, enRappi).faltantes) == multiset(arts)
    ensures forall a :: a in Separar(arts, enRappi).presentes <==> a in arts && enRappi(a)
    ensures forall a :: a in Separar(arts, enRappi).faltantes <==> a in arts && !enRappi(a)
  {
    if arts != [] {
      var n := |arts| - 1;
      SepararParticion(arts[..n], enRappi);
      assert arts == arts[..n] + [arts[n]];
    }
  }

  /** Whether an article's normalised EAN is one of the SKUs. */
  function EnConjunto(conjunto: seq<string>): Art -> bool
  {
    (a: Art) => NormalizaEan(a.ean) in conjunto
  }

  /** `split_icg_vs_rappi`: the test is membership of the normalised EAN in the normalised SKUs. */
  function Dividir(arts: seq<Art>, skus: seq<string>): Division
  {
    Separar(arts, EnConjunto(Normalizados(skus)))
  }

  /**
   * Every article lands in exactly one list, keeping the table's order: the
   * present ones are exactly those whose normalised EAN is a normalised SKU.
   */
  lemma DividirParticion(arts: seq<Art>, skus: seq<string>)
    ensures |Dividir(arts, skus).presentes| + |Dividir(arts, skus).faltantes| == |arts|
    ensures multiset(Dividir(arts, skus).presentes) + multiset(Dividir(arts, skus).faltantes) == multiset(arts)
    ensures forall a :: a in Dividir(arts, skus).presentes <==> a in arts && NormalizaEan(a.ean) in Normalizados(skus)
    ensures forall a :: a in Dividir(arts, skus).faltantes <==> a in arts && NormalizaEan(a.ean) !in Normalizados(skus)
  {
    SepararParticion(arts, EnConjunto(Normalizados(skus)));
  }

  /** `split_icg_vs_rappi`: the SKU set is built once, then each article is tested against it. */
  method SplitIcgVsRappi(arts: seq<Art>, skus: seq<string>) returns (presentes: seq<Art>, faltantes: seq<Art>)
    ensures Division(presentes, faltantes) == Dividir(arts, skus)
  {
    var skuSet := Normalizados(skus);
    presentes, faltantes := SepararLoop(arts, EnConjunto(skuSet));
  }

  /** The loop of `split_icg_vs_rappi`, for any test. */
  method SepararLoop(arts: seq<Art>, enRappi: Art -> bool) returns (presentes: seq<Art>, faltantes: seq<Art>)
    ensures Division(presentes, faltantes) == Separar(arts, enRappi)
  {
    presentes, faltantes := [], [];
    var i := 0;
    while i < |arts|
      invariant 0 <= i <= |arts|
      invariant Division(presentes, faltantes) == Separar(arts[..i], enRappi)
    {
      if enRappi(arts[i]) {
        presentes := presentes + [arts[i]];
      } else {
        faltantes := faltantes + [arts[i]];
      }
      assert arts[..i + 1][..i] == arts[..i];
      i := i + 1;
    }
    assert arts[..i] == arts;
  }

  // ------------------------------------------------------------ 3) Availability

  /** A row of the availability answer: the two SKU keys and the rest of the row. */
  datatype FilaDisp = FilaDisp(itemSku: Option<string>, sku: Option<string>, resto: string)

  /** The availability answer's body: a list, an object with `items`/`results`, other JSON, or a body that is not JSON. */
  datatype Disponibilidad = DLista(filas: seq<FilaDisp>) | DObjeto(items: Option<seq<FilaDisp>>, results: Option<seq<FilaDisp>>) | DOtro | DIlegible

  /** `data.get("items") or data.get("results") or []`, or the list itself. */
  function FilasDe(d: Disponibilidad): seq<FilaDisp>
  {
    match d
    case DLista(filas) => filas
    case DObjeto(items, results) =>
      if items.Some? && items.value != [] then items.value
      else if results.Some? && results.value != [] then results.value
      else []
    case _ => []
  }

  /** `str(row.get("item_sku") or row.get("sku") or "").strip()`. */
  function SkuDeFila(f: FilaDisp): (s: string)
    ensures Strip(s) == s
  {
    if f.itemSku.Some? && f.itemSku.value != "" then NormalizaEan(f.itemSku)
    else NormalizaEan(f.sku)
  }

  /** The rows added to the result, a later row with the same SKU replacing an earlier one. */
  function Anotar(out: map<string, FilaDisp>, filas: seq<FilaDisp>): (r: map<string, FilaDisp>)
    ensures forall s :: s in r ==> s in out || s != ""
    decreases |filas|
  {
    if filas == [] then out
    else
      var s := SkuDeFila(filas[0]);
      Anotar(if s != "" then out[s := filas[0]] else out, filas[1..])
  }

  /**
   * The queries from batch `k` on; `post(part, intento)` is the answer to one
   * batch. An accepted body that is not JSON raises `JSONDecodeError`.
   */
  function Consultar(ls: seq<seq<string>>, out: map<string, FilaDisp>, post: (seq<string>, nat) -> Http<Disponibilidad>): (r: Result<map<string, FilaDisp>>)
    decreases |ls|
  {
    if ls == [] then Ok(out)
    else
      match Pedir(post(ls[0], 0), post(ls[0], 1))
      case Err(e) => Err(e)
      case Ok(data) =>
        if data.DIlegible? then Err(ERROR_JSON)
        else Consultar(ls[1..], Anotar(out, FilasDe(data)), post)
  }

  /** `rappi_check_availability_by_sku`: no SKU means no request and an empty result. */
  function ConsultarDisponibilidad(skus: seq<string>, post: (seq<string>, nat) -> Http<Disponibilidad>): Result<map<string, FilaDisp>>
  {
    if skus == [] then Ok(map[]) else Consultar(Lotes(skus, LOTE), map[], post)
  }

  /** The number of batches queried before the outcome. */
  function Consultas(ls: seq<seq<string>>, out: map<string, FilaDisp>, post: (seq<string>, nat) -> Http<Disponibilidad>): (n: nat)
    ensures n <= |ls|
    decreases |ls|
  {
    if ls == [] then 0
    else
      match Pedir(post(ls[0], 0), post(ls[0], 1))
      case Err(_) => 1
      case Ok(data) =>
        if data.DIlegible? then 1
        else 1 + Consultas(ls[1..], Anotar(out, FilasDe(data)), post)
  }

  /**
   * Without SKUs nothing is requested; otherwise the SKUs go in consecutive
   * batches of at most 200, and a successful query asked every batch, with
   * only non-empty stripped SKUs as keys. A batch whose accepted answer is
   * not JSON is the last one asked.
   */
  lemma {:induction false} ConsultarContrato(ls: seq<seq<string>>, out: map<string, FilaDisp>, post: (seq<string>, nat) -> Http<Disponibilidad>)
    requires "" !in out
    ensures Consultar(ls, out, post).Ok? ==> Consultas(ls, out, post) == |ls| && "" !in Consultar(ls, out, post).value
    ensures ls != [] && Pedir(post(ls[0], 0), post(ls[0], 1)).Ok? && Pedir(post(ls[0], 0), post(ls[0], 1)).value.DIlegible?
            ==> Consultar(ls, out, post) == Err(ERROR_JSON) && Consultas(ls, out, post) == 1
    decreases |ls|
  {
    if ls != [] {
      var r := Pedir(post(ls[0], 0), post(ls[0], 1));
      if r.Ok? && !r.value.DIlegible? {
        ConsultarContrato(ls[1..], Anotar(out, FilasDe(r.value)), post);
      }
    }
  }

  lemma DisponibilidadContrato(skus: seq<string>, post: (seq<string>, nat) -> Http<Disponibilidad>)
    ensures skus == [] ==> ConsultarDisponibilidad(skus, post) == Ok(map[])
    ensures skus != [] ==> Concatenar(Lotes(skus, LOTE)) == skus
    ensures skus != [] && ConsultarDisponibilidad(skus, post).Ok? ==>
              Consultas(Lotes(skus, LOTE), map[], post) == |Lotes(skus, LOTE)|
              && "" !in ConsultarDisponibilidad(skus, post).value
  {
    if skus != [] {
      LotesContrato(skus, LOTE);
      ConsultarContrato(Lotes(skus, LOTE), map[], post);
    }
  }

  /** The rows of one answer. */
  method AnotarFilas(out: map<string, FilaDisp>, filas: seq<FilaDisp>) returns (r: map<string, FilaDisp>)
    ensures r == Anotar(out, filas)
  {
    r := out;
    var j := 0;
    while j < |filas|
      invariant 0 <= j <= |filas|
      invariant Anotar(out, filas) == Anotar(r, filas[j..])
    {
      var sku := SkuDeFila(filas[j]);
      if sku != "" {
        r := r[sku := filas[j]];
      }
      assert filas[j..][1..] == filas[j + 1..];
      j := j + 1;
    }
  }

  /** `rappi_check_availability_by_sku`, batch by batch. */
  method CheckAvailabilityBySku(skus: seq<string>, post: (seq<string>, nat) -> Http<Disponibilidad>) returns (r: Result<map<string, FilaDisp>>)
    ensures r == ConsultarDisponibilidad(skus, post)
  {
    if skus == [] {
      return Ok(map[]);
    }
    var ls := Lotes(skus, LOTE);
    var out: map<string, FilaDisp> := map[];
    var k := 0;
    while k < |ls|
      invariant 0 <= k <= |ls|
      invariant Consultar(ls, map[], post) == Consultar(ls[k..], out, post)
    {
      var part := ls[k];
      var respuesta := post(part, 0);
      if respuesta.Http? && respuesta.status >= 500 {
        respuesta := post(part, 1);
      }
      var data := Aceptar(respuesta);
      if data.Err? {
        return Err(data.error);
      }
      if data.value.DIlegible? {
        return Err(ERROR_JSON);
      }
      out := AnotarFilas(out, FilasDe(data.value));
      assert ls[k..][1..] == ls[k + 1..];
      k := k + 1;
    }
    r := Ok(out);
  }

  // ------------------------------------------------------------ 4) Switching on and off

  /** The SKUs to switch on (stock at least the minimum) and off, in the order of the present articles. */
  datatype Decision = Decision(turnOn: seq<string>, turnOff: seq<string>)

  function Decidir(presentes: seq<Art>, minimo: int): (d: Decision)
    ensures |d.turnOn| + |d.turnOff| == |presentes|
  {
    if presentes == [] then Decision([], [])
    else
      var previa := Decidir(presentes[..|presentes| - 1], minimo);
      var a := presentes[|presentes| - 1];
      if a.stock >= minimo then Decision(previa.turnOn + [NormalizaEan(a.ean)], previa.turnOff)
      else Decision(previa.turnOn, previa.turnOff + [NormalizaEan(a.ean)])
  }

  /** An article is switched on exactly when its stock reaches the minimum, and off otherwise. */
  lemma {:induction false} DecidirContrato(presentes: seq<Art>, minimo: int, a: Art)
    requires a in presentes
    ensures a.stock >= minimo ==> NormalizaEan(a.ean) in Decidir(presentes, minimo).turnOn
    ensures a.stock < minimo ==> NormalizaEan(a.ean) in Decidir(presentes, minimo).turnOff
  {
    var n := |presentes| - 1;
    if presentes[n] != a {
      assert presentes == presentes[..n] + [presentes[n]];
      DecidirContrato(presentes[..n], minimo, a);
    }
  }

  /** The decision loop. */
  method DecidirEncendido(presentes: seq<Art>, minimo: int) returns (turnOn: seq<string>, turnOff: seq<string>)
    ensures Decision(turnOn, turnOff) == Decidir(presentes, minimo)
  {
    turnOn, turnOff := [], [];
    var i := 0;
    while i < |presentes|
      invariant 0 <= i <= |presentes|
      invariant Decision(turnOn, turnOff) == Decidir(presentes[..i], minimo)
    {
      var a := presentes[i];
      var sku := NormalizaEan(a.ean);
      if a.stock >= minimo {
        turnOn := turnOn + [sku];
      } else {
        turnOff := turnOff + [sku];
      }
      assert presentes[..i + 1][..i] == presentes[..i];
      i := i + 1;
    }
    assert presentes[..i] == presentes;
  }

  /** What `rappi_set_availability_by_sku` returns: the answer's body, or `{"status": "ok"}` for an empty one. */
  datatype Salida = Json(texto: string) | EstadoOk

  function SalidaDe(texto: string): (s: Salida)
    ensures s.EstadoOk? <==> texto == ""
  {
    if texto == "" then EstadoOk else Json(texto)
  }

  /**
   * The batches from number `k` on, each sent as `turn_on` (or `turn_off`)
   * with the other list empty and recorded under the prefix and its number;
   * `put(on, off, intento)` answers one request.
   */
  function EnviarLotes(ls: seq<seq<string>>, k: nat, encender: bool, put: (seq<string>, seq<string>, nat) -> Http<string>)
    : (r: Result<seq<(string, Salida)>>)
    decreases |ls|
  {
    if ls == [] then Ok([])
    else
      var on := if encender then ls[0] else [];
      var off := if encender then [] else ls[0];
      match Pedir(put(on, off, 0), put(on, off, 1))
      case Err(e) => Err(e)
      case Ok(texto) =>
        var resto := EnviarLotes(ls[1..], k + 1, encender, put);
        if resto.Err? then resto
        else Ok([(Clave(encender, k), SalidaDe(texto))] + resto.value)
  }

  /** One entry per batch, keyed by the prefix and the batch number from `k` on. */
  lemma {:induction false} EnviarLotesClaves(ls: seq<seq<string>>, k: nat, encender: bool, put: (seq<string>, seq<string>, nat) -> Http<string>)
    ensures var r := EnviarLotes(ls, k, encender, put);
            r.Ok? ==> |r.value| == |ls|
                      && forall j :: 0 <= j < |ls| ==> r.value[j].0 == Clave(encender, k + j)
    decreases |ls|
  {
    if ls != [] {
      EnviarLotesClaves(ls[1..], k + 1, encender, put);
    }
  }

  /** The key a batch's answer is recorded under. */
  function Clave(encender: bool, k: nat): string
  {
    (if encender then TURN_ON else TURN_OFF) + NatATexto(k)
  }

  /** Batch `k` sent: an error stops everything, otherwise its entry precedes those of the later batches. */
  lemma EnviarLotesPaso(ls: seq<seq<string>>, k: nat, encender: bool, put: (seq<string>, seq<string>, nat) -> Http<string>)
    requires k < |ls|
    ensures var on := if encender then ls[k] else [];
            var off := if encender then [] else ls[k];
            var t := Pedir(put(on, off, 0), put(on, off, 1));
            var resto := EnviarLotes(ls[k + 1..], k + 1, encender, put);
            EnviarLotes(ls[k..], k, encender, put)
              == if t.Err? then Err(t.error)
                 else if resto.Err? then resto
                 else Ok([(Clave(encender, k), SalidaDe(t.value))] + resto.value)
  {
    assert ls[k..][0] == ls[k];
    assert ls[k..][1..] == ls[k + 1..];
  }

  /** The entries recorded so far, before the outcome of the remaining batches. */
  function Tras(hechos: seq<(string, Salida)>, resto: Result<seq<(string, Salida)>>): Result<seq<(string, Salida)>>
  {
    if resto.Err? then resto else Ok(hechos + resto.value)
  }

  lemma TrasTras(hechos: seq<(string, Salida)>, e: (string, Salida), resto: Result<seq<(string, Salida)>>)
    ensures Tras(hechos, Tras([e], resto)) == Tras(hechos + [e], resto)
  {
    if resto.Ok? {
      assert hechos + ([e] + resto.value) == (hechos + [e]) + resto.value;
    }
  }

  /** The batch loop's invariant over one batch: a refused batch is the outcome, an accepted one is recorded. */
  lemma AvanzarLote(ls: seq<seq<string>>, k: nat, encender: bool, put: (seq<string>, seq<string>, nat) -> Http<string>,
                    hechos: seq<(string, Salida)>, todo: Result<seq<(string, Salida)>>, texto: Result<string>)
    requires k < |ls| && todo == Tras(hechos, EnviarLotes(ls[k..], k, encender, put))
    requires var on := if encender then ls[k] else [];
             var off := if encender then [] else ls[k];
             texto == Pedir(put(on, off, 0), put(on, off, 1))
    ensures texto.Err? ==> todo == Err(texto.error)
    ensures texto.Ok? ==> todo == Tras(hechos + [(Clave(encender, k), SalidaDe(texto.value))], EnviarLotes(ls[k + 1..], k + 1, encender, put))
  {
    EnviarLotesPaso(ls, k, encender, put);
    if texto.Ok? {
      TrasTras(hechos, (Clave(encender, k), SalidaDe(texto.value)), EnviarLotes(ls[k + 1..], k + 1, encender, put));
    }
  }

  /** `rappi_set_availability_by_sku` over one list: its batches in order. */
  method SetAvailabilityLotes(xs: seq<string>, encender: bool, put: (seq<string>, seq<string>, nat) -> Http<string>)
    returns (r: Result<seq<(string, Salida)>>)
    ensures r == EnviarLotes(Lotes(xs, LOTE), 0, encender, put)
  {
    r := EnviarCadaLote(Lotes(xs, LOTE), encender, put);
  }

  /** The batch loop: each batch sent with its retry, its answer recorded under its key. */
  method EnviarCadaLote(ls: seq<seq<string>>, encender: bool, put: (seq<string>, seq<string>, nat) -> Http<string>)
    returns (r: Result<seq<(string, Salida)>>)
    ensures r == EnviarLotes(ls, 0, encender, put)
  {
    var hechos: seq<(string, Salida)> := [];
    var k := 0;
    assert ls[0..] == ls;
    ghost var todo := EnviarLotes(ls, 0, encender, put);
    if todo.Ok? {
      assert [] + todo.value == todo.value;
    }
    while k < |ls|
      invariant 0 <= k <= |ls|
      invariant todo == Tras(hechos, EnviarLotes(ls[k..], k, encender, put))
    {
      var on := if encender then ls[k] else [];
      var off := if encender then [] else ls[k];
      var respuesta := put(on, off, 0);
      if respuesta.Http? && respuesta.status >= 500 {
        respuesta := put(on, off, 1);
      }
      var texto := Aceptar(respuesta);
      AvanzarLote(ls, k, encender, put, hechos, todo, texto);
      if texto.Err? {
        return Err(texto.error);
      }
      hechos := hechos + [(Clave(encender, k), SalidaDe(texto.value))];
      k := k + 1;
    }
    assert hechos + [] == hechos;
    r := Ok(hechos);
  }

  // ------------------------------------------------------------ Orchestration

  /** The returned summary. */
  datatype Resumen = Resumen(
    icgTotal: nat, rappiSkus: nat, presentes: nat, faltantes: nat, turnOn: nat, turnOff: nat,
    resultadoSet: seq<(string, Salida)>)

  /** The articles considered: those the optional filter keeps, of the store when one is given. */
  function Base(tabla: seq<Art>, filtro: Art -> bool, storeId: string): (b: seq<Art>)
    ensures |b| <= |tabla|
    ensures forall k :: 0 <= k < |b| ==> filtro(b[k]) && (storeId != "" ==> b[k].storeId == storeId)
  {
    if tabla == [] then []
    else
      var a := tabla[|tabla| - 1];
      Base(tabla[..|tabla| - 1], filtro, storeId)
      + (if filtro(a) && (storeId == "" || a.storeId == storeId) then [a] else [])
  }

  /** `[_normaliza_ean(a.ean) for a in presentes if a.ean]`. */
  function SkuPresentes(presentes: seq<Art>): (r: seq<string>)
    ensures |r| <= |presentes|
  {
    if presentes == [] then []
    else
      var a := presentes[|presentes| - 1];
      SkuPresentes(presentes[..|presentes| - 1]) + (if a.ean.Some? && a.ean.value != "" then [NormalizaEan(a.ean)] else [])
  }

  /** Every article with a non-empty EAN contributes its SKU. */
  lemma {:induction false} SkuPresentesTodos(presentes: seq<Art>)
    requires forall k :: 0 <= k < |presentes| ==> presentes[k].ean.Some? && presentes[k].ean.value != ""
    ensures |SkuPresentes(presentes)| == |presentes|
  {
    if presentes != [] {
      SkuPresentesTodos(presentes[..|presentes| - 1]);
    }
  }

  /** When no normalised Rappi SKU is empty, every present article is queried. */
  lemma SkuPresentesCompletos(arts: seq<Art>, skus: seq<string>)
    requires "" !in Normalizados(skus)
    ensures |SkuPresentes(Dividir(arts, skus).presentes)| == |Dividir(arts, skus).presentes|
  {
    var ps := Dividir(arts, skus).presentes;
    DividirParticion(arts, skus);
    forall k | 0 <= k < |ps| ensures ps[k].ean.Some? && ps[k].ean.value != "" {
      assert ps[k] in ps;
      assert NormalizaEan(ps[k].ean) in Normalizados(skus);
    }
    SkuPresentesTodos(ps);
  }

  /**
   * The steps after the listing: split, availability query, decision and
   * the two batch loops. The summary adds up: present and missing articles
   * make up the articles considered, switched on and off make up the present
   * ones, and there is one result per batch.
   */
  function Cruzar(base: seq<Art>, skus: seq<string>, minimo: int,
                  post: (seq<string>, nat) -> Http<Disponibilidad>, put: (seq<string>, seq<string>, nat) -> Http<string>)
    : (r: Result<Resumen>)
    ensures r.Ok? ==>
              r.value.icgTotal == |base| && r.value.rappiSkus == |skus|
              && r.value.presentes + r.value.faltantes == r.value.icgTotal
              && r.value.turnOn + r.value.turnOff == r.value.presentes
              && |r.value.resultadoSet| == |Lotes(Decidir(Dividir(base, skus).presentes, minimo).turnOn, LOTE)|
                                           + |Lotes(Decidir(Dividir(base, skus).presentes, minimo).turnOff, LOTE)|
  {
    var d := Dividir(base, skus);
    var estado := ConsultarDisponibilidad(SkuPresentes(d.presentes), post);
    if estado.Err? then Err(estado.error)
    else
      var dec := Decidir(d.presentes, minimo);
      var on := EnviarLotes(Lotes(dec.turnOn, LOTE), 0, true, put);
      if on.Err? then Err(on.error)
      else
        var off := EnviarLotes(Lotes(dec.turnOff, LOTE), 0, false, put);
        if off.Err? then Err(off.error)
        else
          EnviarLotesClaves(Lotes(dec.turnOn, LOTE), 0, true, put);
          EnviarLotesClaves(Lotes(dec.turnOff, LOTE), 0, false, put);
          SepararParticion(base, EnConjunto(Normalizados(skus)));
          Ok(Resumen(|base|, |skus|, |d.presentes|, |d.faltantes|, |dec.turnOn|, |dec.turnOff|, on.value + off.value))
  }

  /** `sincronizar_icg_con_rappi`, given the login's outcome and the servers' answers. */
  function Sincronizar(
    storeId: string, minimo: int, limit: int, pages: nat, filtro: Art -> bool, tabla: seq<Art>,
    login: Result<string>, get: (int, int, nat) -> Http<Pagina>,
    post: (seq<string>, nat) -> Http<Disponibilidad>, put: (seq<string>, seq<string>, nat) -> Http<string>)
    : Result<Resumen>
  {
    if login.Err? then Err(login.error)
    else
      var lista := ListaSkus(pages, limit, get);
      if lista.skus.Err? then Err(lista.skus.error)
      else Cruzar(Base(tabla, filtro, storeId), lista.skus.value, minimo, post, put)
  }

  /**
   * A failed login stops everything; otherwise the summary adds up over the
   * articles of the table the filter and the store keep, and every present
   * article's SKU is queried for its availability.
   */
  lemma SincronizarResumen(
    storeId: string, minimo: int, limit: int, pages: nat, filtro: Art -> bool, tabla: seq<Art>,
    login: Result<string>, get: (int, int, nat) -> Http<Pagina>,
    post: (seq<string>, nat) -> Http<Disponibilidad>, put: (seq<string>, seq<string>, nat) -> Http<string>)
    ensures var r := Sincronizar(storeId, minimo, limit, pages, filtro, tabla, login, get, post, put);
            r.Ok? ==>
              r.value.presentes + r.value.faltantes == r.value.icgTotal
              && r.value.turnOn + r.value.turnOff == r.value.presentes
              && r.value.icgTotal <= |tabla|
    ensures var r := Sincronizar(storeId, minimo, limit, pages, filtro, tabla, login, get, post, put);
            login.Err? ==> r == Err(login.error)
    ensures var lista := ListaSkus(pages, limit, get);
            lista.skus.Ok? ==>
              var d := Dividir(Base(tabla, filtro, storeId), lista.skus.value);
              |SkuPresentes(d.presentes)| == |d.presentes|
  {
    var lista := ListaSkus(pages, limit, get);
    ListaSkusNormalizada(pages, limit, get);
    if lista.skus.Ok? {
      var skus := lista.skus.value;
      assert Normalizados(skus) == skus;
      SkuPresentesCompletos(Base(tabla, filtro, storeId), skus);
    }
  }

  /** `sincronizar_icg_con_rappi`, its steps in order. */
  method SincronizarIcgConRappi(
    storeId: string, minimo: int, limit: int, pages: nat, filtro: Art -> bool, tabla: seq<Art>,
    login: Result<string>, get: (int, int, nat) -> Http<Pagina>,
    post: (seq<string>, nat) -> Http<Disponibilidad>, put: (seq<string>, seq<string>, nat) -> Http<string>)
    returns (r: Result<Resumen>)
    ensures r == Sincronizar(storeId, minimo, limit, pages, filtro, tabla, login, get, post, put)
  {
    if login.Err? {
      return Err(login.error);
    }
    var lista := ListProductsSkus(pages, limit, get);
    if lista.skus.Err? {
      return Err(lista.skus.error);
    }
    r := CruzarIcgConRappi(Base(tabla, filtro, storeId), lista.skus.value, minimo, post, put);
  }

  /** The steps of `sincronizar_icg_con_rappi` after the listing, in order. */
  method CruzarIcgConRappi(baseQs: seq<Art>, rappiSkus: seq<string>, minimo: int,
                           post: (seq<string>, nat) -> Http<Disponibilidad>, put: (seq<string>, seq<string>, nat) -> Http<string>)
    returns (r: Result<Resumen>)
    ensures r == Cruzar(baseQs, rappiSkus, minimo, post, put)
  {
    var presentes, faltantes := SplitIcgVsRappi(baseQs, rappiSkus);
    var estadoActual := CheckAvailabilityBySku(SkuPresentes(presentes), post);
    if estadoActual.Err? {
      return Err(estadoActual.error);
    }
    var turnOn, turnOff := DecidirEncendido(presentes, minimo);
    var on := SetAvailabilityLotes(turnOn, true, put);
    if on.Err? {
      return Err(on.error);
    }
    var off := SetAvailabilityLotes(turnOff, false, put);
    if off.Err? {
      return Err(off.error);
    }
    r := Ok(Resumen(|baseQs|, |rappiSkus|, |presentes|, |faltantes|, |turnOn|, |turnOff|, on.value + off.value));
  }
}

/**
 * `update_inventory_one_by_one` (`automatizaciones/service/rappi_update_state.py`):
 * one article's stock and prices are sent to Rappi. The local store id is
 * mapped to Rappi's store, the Rappi ids are looked up by EAN and then by
 * code, and the inventory PUT tries the product id and, on a 404, the
 * listing id; the article's flags are updated locally.
 *
 * The two HTTP calls are parameters: `get(sku)` answers the SKU lookup and
 * `put(tienda, id, payload)` the inventory update (or give the exception
 * `requests` raised). A `RappiError` is the datatype `Falla`, holding the
 * values its message is formatted from.
 */
module RappiEstado {
  import opened Resultados
  import opened Textos
  import opened Decimales
  import RappiSync

  const MOTIVO_OMITIDO := "stock <= 0 (no se envía actualización a Rappi)"
  const SIN_RESPUESTA := "no response"
  const JSON_TIPO := "application/json"
  /** The exception `r.json()` raises on a body that is not JSON. */
  const ERROR_JSON := "JSONDecodeError"

  /** The `RappiError`s raised, and an exception from `requests` that propagates. */
  datatype Falla =
    | StoreIdNulo
    | SinNombre(key: string)
    | SinIdRappi(nombre: string)
    | SinIds(ean: Option<string>, code: Option<string>)
    | IdsVacios(ean: Option<string>, code: Option<string>)
    | PutFallido(intentos: seq<Intento>, cuerpo: string)
    | Excepcion(mensaje: string)

  /** The value returned, or the exception raised. */
  datatype Res<T> = Vale(valor: T) | Falla(falla: Falla)

  // ------------------------------------------------------------ Store

  /** The lookups of `_resolve_rappi_store_id` for a key already trimmed. */
  function ResolverClave(key: string, localToName: map<string, string>, nameToRappi: map<string, int>)
    : (r: Res<int>)
    ensures key !in localToName <==> r == Falla(SinNombre(key))
    ensures r.Vale? <==> key in localToName && localToName[key] in nameToRappi
    ensures r.Vale? ==> r.valor == nameToRappi[localToName[key]]
    ensures key in localToName ==> (localToName[key] !in nameToRappi <==> r == Falla(SinIdRappi(localToName[key])))
  {
    if key !in localToName then Falla(SinNombre(key))
    else
      var nombre := localToName[key];
      if nombre !in nameToRappi then Falla(SinIdRappi(nombre))
      else Vale(nameToRappi[nombre])
  }

  /**
   * `_resolve_rappi_store_id`: the trimmed local id is mapped to a store
   * name and the name to Rappi's store id; each missing step raises.
   */
  function ResolverTienda(local: Option<string>, localToName: map<string, string>, nameToRappi: map<string, int>)
    : (r: Res<int>)
    ensures local.None? <==> r == Falla(StoreIdNulo)
    ensures local.Some? ==> r == ResolverClave(Strip(local.value), localToName, nameToRappi)
  {
    if local.None? then Falla(StoreIdNulo)
    else ResolverClave(Strip(local.value), localToName, nameToRappi)
  }

  /** Surrounding blanks in the local store id make no difference. */
  lemma ResolverRecorta(x: string, localToName: map<string, string>, nameToRappi: map<string, int>)
    ensures ResolverTienda(Some(Strip(x)), localToName, nameToRappi) == ResolverTienda(Some(x), localToName, nameToRappi)
  {
    StripIdempotente(x);
  }

  // ------------------------------------------------------------ Ids from the SKU endpoint

  /** A JSON field: missing, `null`, or a string. */
  datatype Campo = Falta | Nulo | Texto(s: string)

  /** `str(item.get("sku", ""))`: a missing key reads as the empty string, `null` as `"None"`. */
  function TextoDe(c: Campo): string
  {
    match c
    case Falta => ""
    case Nulo => "None"
    case Texto(s) => s
  }

  /** An item of the SKU endpoint: its `sku`, `productId` and `id`. */
  datatype ItemSku = ItemSku(sku: Campo, productId: Option<int>, id: Option<int>)

  /** The answer's body: a list, an object with `data`/`items`, other JSON, or a body that is not JSON. */
  datatype Catalogo = CLista(items: seq<ItemSku>) | CObjeto(data: Option<seq<ItemSku>>, itemsObj: Option<seq<ItemSku>>) | COtro | CIlegible

  /** The items searched: the list, or `data.get("data") or data.get("items") or []`. */
  function ItemsDe(c: Catalogo): (items: seq<ItemSku>)
    ensures c.CLista? ==> items == c.items
    ensures c.COtro? ==> items == []
  {
    match c
    case CLista(items) => items
    case CObjeto(data, itemsObj) =>
      if data.Some? && data.value != [] then data.value
      else if itemsObj.Some? && itemsObj.value != [] then itemsObj.value
      else []
    case _ => []
  }

  /** The ids Rappi knows an article by; each one is set only when truthy. */
  datatype Ids = Ids(productId: Option<int>, listingId: Option<int>)

  /** `int(x) if x else None`. */
  function Verdadero(x: Option<int>): (r: Option<int>)
    ensures r.Some? <==> x.Some? && x.value != 0
    ensures r.Some? ==> r == x
  {
    if x.Some? && x.value != 0 then x else None
  }

  /** `pick`: `productId` and the item's `id` as the listing id. */
  function Pick(item: ItemSku): Ids
  {
    Ids(Verdadero(item.productId), Verdadero(item.id))
  }

  /** The position of the first item the test accepts, `|items|` when there is none. */
  function PrimeraQue(items: seq<ItemSku>, p: ItemSku -> bool): (i: nat)
    ensures i <= |items|
    ensures i < |items| ==> p(items[i])
    ensures forall j :: 0 <= j < i ==> !p(items[j])
    decreases |items|
  {
    if items == [] then 0
    else if p(items[0]) then 0
    else 1 + PrimeraQue(items[1..], p)
  }

  /** Whether an item's trimmed `sku` is the one searched. */
  function Coincide(buscado: string): ItemSku -> bool
  {
    (item: ItemSku) => Strip(TextoDe(item.sku)) == buscado
  }

  /**
   * `_get_ids_from_sku`: no SKU (or an empty one) gives `None` without a
   * request; an answer other than 200 gives `None`; a 200 answer whose body
   * is not JSON raises `JSONDecodeError`; otherwise the ids of the first item
   * whose trimmed SKU is the trimmed SKU searched, `None` when there is none.
   * An exception of the request propagates.
   */
  function IdsDeSku(sku: Option<string>, get: string -> RappiSync.Http<Catalogo>): Res<Option<Ids>>
  {
    if sku.None? || sku.value == "" then Vale(None)
    else
      var buscado := Strip(sku.value);
      match get(buscado)
      case Excepcion(m) => Falla(Excepcion(m))
      case Http(status, cuerpo) =>
        if status != 200 then Vale(None)
        else if cuerpo.CIlegible? then Falla(Excepcion(ERROR_JSON))
        else
          var items := ItemsDe(cuerpo);
          var i := PrimeraQue(items, Coincide(buscado));
          if i < |items| then Vale(Some(Pick(items[i]))) else Vale(None)
  }

  /**
   * The lookup of an SKU: ids are found only with an SKU and a 200 answer,
   * from an item whose trimmed SKU matches and that follows no other match.
   */
  lemma IdsDeSkuContrato(sku: Option<string>, get: string -> RappiSync.Http<Catalogo>)
    ensures sku.None? || sku.value == "" ==> IdsDeSku(sku, get) == Vale(None)
    ensures sku.Some? && sku.value != "" && get(Strip(sku.value)).Http? && get(Strip(sku.value)).status != 200
            ==> IdsDeSku(sku, get) == Vale(None)
    ensures IdsDeSku(sku, get).Vale? && IdsDeSku(sku, get).valor.Some? ==>
              sku.Some? && sku.value != "" && get(Strip(sku.value)).Http? && get(Strip(sku.value)).status == 200
              && var items := ItemsDe(get(Strip(sku.value)).cuerpo);
                 exists i :: 0 <= i < |items| && Strip(TextoDe(items[i].sku)) == Strip(sku.value)
                             && IdsDeSku(sku, get).valor.value == Pick(items[i])
                             && forall j :: 0 <= j < i ==> Strip(TextoDe(items[j].sku)) != Strip(sku.value)
  {
    if sku.Some? && sku.value != "" {
      var buscado := Strip(sku.value);
      var h := get(buscado);
      if h.Http? && h.status == 200 {
        var items := ItemsDe(h.cuerpo);
        var i := PrimeraQue(items, Coincide(buscado));
        PrimeraCoincidente(items, buscado);
        if i < |items| {
          assert IdsDeSku(sku, get) == Vale(Some(Pick(items[i])));
        }
      }
    }
  }

  /**
   * The lookup raises exactly when the request raises or answers 200 with a
   * body that is not JSON; the latter raises `JSONDecodeError`.
   */
  lemma IdsDeSkuFalla(sku: Option<string>, get: string -> RappiSync.Http<Catalogo>)
    ensures IdsDeSku(sku, get).Falla? <==>
              sku.Some? && sku.value != "" && (get(Strip(sku.value)).Excepcion?
              || (get(Strip(sku.value)).status == 200 && get(Strip(sku.value)).cuerpo.CIlegible?))
    ensures sku.Some? && sku.value != "" && get(Strip(sku.value)).Http? && get(Strip(sku.value)).status == 200
            && get(Strip(sku.value)).cuerpo.CIlegible?
            ==> IdsDeSku(sku, get) == Falla(Excepcion(ERROR_JSON))
  {
  }

  /** The first item accepted is one whose trimmed SKU matches, after none that does. */
  lemma PrimeraCoincidente(items: seq<ItemSku>, buscado: string)
    ensures var i := PrimeraQue(items, Coincide(buscado));
            i < |items| ==> Strip(TextoDe(items[i].sku)) == buscado
                            && forall j :: 0 <= j < i ==> Strip(TextoDe(items[j].sku)) != buscado
  {
    var i := PrimeraQue(items, Coincide(buscado));
    if i < |items| {
      assert Coincide(buscado)(items[i]);
      forall j | 0 <= j < i ensures Strip(TextoDe(items[j].sku)) != buscado {
        assert !Coincide(buscado)(items[j]);
      }
    }
  }

  /** `ids_by_ean or ids_by_code`: the code is looked up only when the EAN lookup gives `None`. */
  function BuscarIds(ean: Option<string>, code: Option<string>, get: string -> RappiSync.Http<Catalogo>): (r: Res<Option<Ids>>)
    ensures IdsDeSku(ean, get).Falla? ==> r == IdsDeSku(ean, get)
    ensures IdsDeSku(ean, get).Vale? && IdsDeSku(ean, get).valor.Some? ==> r == IdsDeSku(ean, get)
    ensures IdsDeSku(ean, get) == Vale(None) ==> r == IdsDeSku(code, get)
  {
    var porEan := IdsDeSku(ean, get);
    if porEan.Falla? || porEan.valor.Some? then porEan else IdsDeSku(code, get)
  }

  /** The loop of `_get_ids_from_sku` over the items, for any test. */
  method BuscarPrimera(items: seq<ItemSku>, p: ItemSku -> bool) returns (i: nat)
    ensures i == PrimeraQue(items, p)
  {
    i := 0;
    while i < |items|
      invariant 0 <= i <= |items|
      invariant PrimeraQue(items, p) == i + PrimeraQue(items[i..], p)
    {
      if p(items[i]) {
        return;
      }
      assert items[i..][1..] == items[i + 1..];
      i := i + 1;
    }
  }

  /** `_get_ids_from_sku`, its guards and loop in order. */
  method GetIdsFromSku(sku: Option<string>, get: string -> RappiSync.Http<Catalogo>) returns (r: Res<Option<Ids>>)
    ensures r == IdsDeSku(sku, get)
  {
    if sku.None? || sku.value == "" {
      return Vale(None);
    }
    var buscado := Strip(sku.value);
    var respuesta := get(buscado);
    if respuesta.Excepcion? {
      return Falla(Excepcion(respuesta.mensaje));
    }
    if respuesta.status != 200 {
      return Vale(None);
    }
    if respuesta.cuerpo.CIlegible? {
      return Falla(Excepcion(ERROR_JSON));
    }
    var items := ItemsDe(respuesta.cuerpo);
    var i := BuscarPrimera(items, Coincide(buscado));
    if i < |items| {
      return Vale(Some(Pick(items[i])));
    }
    r := Vale(None);
  }

  // ------------------------------------------------------------ Money

  /** The value handed to `_to_int_money`: `None`, a number, or something `float()` rejects. */
  datatype Dinero = Ninguno | Numero(x: real) | NoNumerico

  /** `_to_int_money`: the nearest integer, ties to even (Python's `round`); `None` and errors give 0. */
  function ToIntMoney(v: Dinero): (r: int)
    ensures v.Numero? ==> -0.5 <= r as real - v.x <= 0.5
    ensures !v.Numero? ==> r == 0
  {
    match v
    case Numero(x) => MitadPar(x)
    case _ => 0
  }

  /** A whole amount is sent unchanged. */
  lemma ToIntMoneyEntero(k: int)
    ensures ToIntMoney(Numero(k as real)) == k
  {
    MitadParEntero(k);
  }

  /** The inventory payload. */
  datatype Payload = Payload(stock: int, price: int, salePrice: int)

  /** The discount price when it is positive, else the price, both as whole amounts. */
  function PayloadDe(stock: int, price: real, discountPrice: real): (p: Payload)
    ensures p.stock == stock && p.price == ToIntMoney(Numero(price))
    ensures ToIntMoney(Numero(discountPrice)) > 0 ==> p.salePrice == ToIntMoney(Numero(discountPrice))
    ensures ToIntMoney(Numero(discountPrice)) <= 0 ==> p.salePrice == p.price
  {
    var price' := ToIntMoney(Numero(price));
    var discount := ToIntMoney(Numero(discountPrice));
    Payload(stock, price', if discount > 0 then discount else price')
  }

  // ------------------------------------------------------------ Inventory PUT

  datatype TipoId = ProductId | ListingId

  /** An entry of `tried`. */
  datatype Intento = Intento(tipo: TipoId, valor: int, status: int)

  /** The PUT's answer: its status, its content type, its text, and its JSON when the text decodes. */
  datatype Cuerpo = Cuerpo(contentType: string, texto: string, json: Option<string>)

  /** The attempts made and the last answer, if any. */
  datatype Envio = Envio(intentos: seq<Intento>, ultima: Option<(int, Cuerpo)>)

  /**
   * The PUT with the product id, again with the listing id only after a 404
   * and when there is one; the listing id alone when there is no product id.
   */
  function PutConReintento(tienda: int, ids: Ids, payload: Payload, put: (int, int, Payload) -> RappiSync.Http<Cuerpo>)
    : Res<Envio>
  {
    if ids.productId.Some? then
      match put(tienda, ids.productId.value, payload)
      case Excepcion(m) => Falla(Excepcion(m))
      case Http(st, c) =>
        var primero := [Intento(ProductId, ids.productId.value, st)];
        if st == 404 && ids.listingId.Some? then
          match put(tienda, ids.listingId.value, payload)
          case Excepcion(m) => Falla(Excepcion(m))
          case Http(st2, c2) => Vale(Envio(primero + [Intento(ListingId, ids.listingId.value, st2)], Some((st2, c2))))
        else Vale(Envio(primero, Some((st, c))))
    else if ids.listingId.Some? then
      match put(tienda, ids.listingId.value, payload)
      case Excepcion(m) => Falla(Excepcion(m))
      case Http(st, c) => Vale(Envio([Intento(ListingId, ids.listingId.value, st)], Some((st, c))))
    else Vale(Envio([], None))
  }

  /**
   * The product id is tried first whenever there is one; the listing id is
   * tried second exactly after a 404 for the product id; the attempts are
   * recorded in order and the last answer is the last attempt's.
   */
  lemma PutContrato(tienda: int, ids: Ids, payload: Payload, put: (int, int, Payload) -> RappiSync.Http<Cuerpo>)
    ensures var r := PutConReintento(tienda, ids, payload, put);
            r.Vale? ==>
              var t := r.valor.intentos;
              (ids.productId.None? && ids.listingId.None? <==> t == [])
              && (t == [] <==> r.valor.ultima.None?)
              && |t| <= 2
              && (t != [] ==> r.valor.ultima.value.0 == t[|t| - 1].status)
              && (ids.productId.Some? ==> t[0] == Intento(ProductId, ids.productId.value, t[0].status))
              && (ids.productId.None? && ids.listingId.Some? ==> t == [Intento(ListingId, ids.listingId.value, t[0].status)])
              && (|t| == 2 <==> ids.productId.Some? && t[0].status == 404 && ids.listingId.Some?)
              && (|t| == 2 ==> t[1] == Intento(ListingId, ids.listingId.value, t[1].status))
  {
  }

  /** The PUT flow, appending to `tried` as it goes. */
  method PutInventario(tienda: int, ids: Ids, payload: Payload, put: (int, int, Payload) -> RappiSync.Http<Cuerpo>)
    returns (r: Res<Envio>)
    ensures r == PutConReintento(tienda, ids, payload, put)
  {
    var tried: seq<Intento> := [];
    var resp: Option<(int, Cuerpo)> := None;
    if ids.productId.Some? {
      var h := put(tienda, ids.productId.value, payload);
      if h.Excepcion? {
        return Falla(Excepcion(h.mensaje));
      }
      resp := Some((h.status, h.cuerpo));
      tried := tried + [Intento(ProductId, ids.productId.value, h.status)];
      assert tried == [Intento(ProductId, ids.productId.value, h.status)];
      if h.status == 404 && ids.listingId.Some? {
        var h2 := put(tienda, ids.listingId.value, payload);
        if h2.Excepcion? {
          return Falla(Excepcion(h2.mensaje));
        }
        resp := Some((h2.status, h2.cuerpo));
        tried := tried + [Intento(ListingId, ids.listingId.value, h2.status)];
      }
    } else if ids.listingId.Some? {
      var h := put(tienda, ids.listingId.value, payload);
      if h.Excepcion? {
        return Falla(Excepcion(h.mensaje));
      }
      resp := Some((h.status, h.cuerpo));
      tried := tried + [Intento(ListingId, ids.listingId.value, h.status)];
      assert tried == [Intento(ListingId, ids.listingId.value, h.status)];
    }
    r := Vale(Envio(tried, resp));
  }

  /** An accepted final status. */
  predicate Aceptado(status: int)
  {
    status == 200 || status == 201 || status == 202
  }

  /** The `response` reported: the decoded JSON for a JSON content type, `{"raw": text}` otherwise. */
  datatype Datos = Json(valor: string) | Raw(texto: string)

  predicate EsJson(contentType: string)
  {
    var t := Lower(contentType);
    |JSON_TIPO| <= |t| && t[..|JSON_TIPO|] == JSON_TIPO
  }

  /** The data of an accepted answer; `resp.json()` raises when a JSON answer does not decode. */
  function DatosDe(c: Cuerpo): Res<Datos>
  {
    if !EsJson(c.contentType) then Vale(Raw(c.texto))
    else if c.json.None? then Falla(Excepcion(ERROR_JSON))
    else Vale(Json(c.json.value))
  }

  // ------------------------------------------------------------ The update

  /** The fields of an `Articulos` row the update reads or writes. */
  datatype Articulo = Articulo(
    stock: int, storeId: Option<string>, ean: Option<string>, code: Option<string>,
    price: real, discountPrice: real, isAvailable: bool, modificado: bool)

  /** `str(store_id)`. */
  function StoreLocal(s: Option<string>): string
  {
    if s.None? then "None" else s.value
  }

  /** The returned dict: a skipped article, or what was sent and answered. */
  datatype Informe =
    | Omitido(motivo: string, storeLocal: string, ean: Option<string>)
    | Enviado(storeLocal: string, storeRappi: int, used: Intento, idsFound: Ids, sent: Payload,
              response: Datos, attempts: seq<Intento>)

  /** The outcome of the update for an article, given the maps and the servers' answers. */
  function Actualizar(a: Articulo, localToName: map<string, string>, nameToRappi: map<string, int>,
                      get: string -> RappiSync.Http<Catalogo>, put: (int, int, Payload) -> RappiSync.Http<Cuerpo>)
    : Res<Informe>
  {
    if a.stock <= 0 then Vale(Omitido(MOTIVO_OMITIDO, StoreLocal(a.storeId), a.ean))
    else
      var tienda := ResolverTienda(a.storeId, localToName, nameToRappi);
      if tienda.Falla? then Falla(tienda.falla)
      else ConTienda(a, tienda.valor, get, put)
  }

  /** Once the store is known: the ids by EAN, then by code; none, or neither id set, raises. */
  function ConTienda(a: Articulo, tienda: int, get: string -> RappiSync.Http<Catalogo>, put: (int, int, Payload) -> RappiSync.Http<Cuerpo>)
    : Res<Informe>
  {
    var ids := BuscarIds(a.ean, a.code, get);
    if ids.Falla? then Falla(ids.falla)
    else if ids.valor.None? then Falla(SinIds(a.ean, a.code))
    else if ids.valor.value.productId.None? && ids.valor.value.listingId.None? then Falla(IdsVacios(a.ean, a.code))
    else ConIds(a, tienda, ids.valor.value, put)
  }

  /** Once the ids are known: the payload and the PUT flow. */
  function ConIds(a: Articulo, tienda: int, ids: Ids, put: (int, int, Payload) -> RappiSync.Http<Cuerpo>): Res<Informe>
  {
    var payload := PayloadDe(a.stock, a.price, a.discountPrice);
    var envio := PutConReintento(tienda, ids, payload, put);
    if envio.Falla? then Falla(envio.falla)
    else
      PutContrato(tienda, ids, payload, put);
      Cerrar(StoreLocal(a.storeId), tienda, ids, payload, envio.valor)
  }

  /** The last answer: a missing or unaccepted one raises with the attempts; an accepted one is reported. */
  function Cerrar(storeLocal: string, tienda: int, ids: Ids, payload: Payload, envio: Envio): (r: Res<Informe>)
    requires envio.ultima.Some? ==> envio.intentos != []
    ensures r.Vale? ==> envio.ultima.Some? && Aceptado(envio.ultima.value.0) && envio.intentos != []
                        && r.valor.Enviado? && r.valor.attempts == envio.intentos
                        && r.valor.used == envio.intentos[|envio.intentos| - 1]
                        && r.valor.storeRappi == tienda && r.valor.idsFound == ids && r.valor.sent == payload
    ensures envio.ultima.None? ==> r == Falla(PutFallido(envio.intentos, SIN_RESPUESTA))
    ensures envio.ultima.Some? && !Aceptado(envio.ultima.value.0) ==> r == Falla(PutFallido(envio.intentos, envio.ultima.value.1.texto))
  {
    if envio.ultima.None? then Falla(PutFallido(envio.intentos, SIN_RESPUESTA))
    else if !Aceptado(envio.ultima.value.0) then Falla(PutFallido(envio.intentos, envio.ultima.value.1.texto))
    else
      var datos := DatosDe(envio.ultima.value.1);
      if datos.Falla? then Falla(datos.falla)
      else Vale(Enviado(storeLocal, tienda, envio.intentos[|envio.intentos| - 1], ids, payload, datos.valor, envio.intentos))
  }

  /** The article's flags after the update: unavailable when skipped, available when sent, unchanged when it raises. */
  function Tras(a: Articulo, r: Res<Informe>): (b: Articulo)
    ensures r.Falla? ==> b == a
    ensures r.Vale? ==> b == a.(isAvailable := b.isAvailable, modificado := false)
    ensures r.Vale? && r.valor.Enviado? ==> b.isAvailable == (a.stock > 0)
    ensures r.Vale? && r.valor.Omitido? ==> !b.isAvailable
  {
    if r.Falla? then a
    else if r.valor.Omitido? then a.(isAvailable := false, modificado := false)
    else a.(isAvailable := a.stock > 0, modificado := false)
  }

  /** With no stock nothing is requested: the outcome does not depend on the servers, and the article ends unavailable. */
  lemma SinStockNoEnvia(a: Articulo, localToName: map<string, string>, nameToRappi: map<string, int>,
                        get: string -> RappiSync.Http<Catalogo>, put: (int, int, Payload) -> RappiSync.Http<Cuerpo>,
                        get2: string -> RappiSync.Http<Catalogo>, put2: (int, int, Payload) -> RappiSync.Http<Cuerpo>)
    requires a.stock <= 0
    ensures Actualizar(a, localToName, nameToRappi, get, put) == Actualizar(a, localToName, nameToRappi, get2, put2)
    ensures Actualizar(a, localToName, nameToRappi, get, put) == Vale(Omitido(MOTIVO_OMITIDO, StoreLocal(a.storeId), a.ean))
    ensures var b := Tras(a, Actualizar(a, localToName, nameToRappi, get, put));
            !b.isAvailable && !b.modificado && b.stock == a.stock
  {
  }

  /** The store is resolved before any request: an unknown store raises whatever the servers would answer. */
  lemma TiendaAntesDeLlamar(a: Articulo, localToName: map<string, string>, nameToRappi: map<string, int>,
                            get: string -> RappiSync.Http<Catalogo>, put: (int, int, Payload) -> RappiSync.Http<Cuerpo>)
    requires a.stock > 0 && ResolverTienda(a.storeId, localToName, nameToRappi).Falla?
    ensures Actualizar(a, localToName, nameToRappi, get, put) == Falla(ResolverTienda(a.storeId, localToName, nameToRappi).falla)
  {
  }

  /**
   * A successful send had stock, went to the resolved store with the ids of
   * the lookups (EAN first), sent the stock and the sale price, and its last
   * attempt, the one reported as used, was accepted; the article ends
   * available and not modified.
   */
  lemma EnviadoContrato(a: Articulo, localToName: map<string, string>, nameToRappi: map<string, int>,
                        get: string -> RappiSync.Http<Catalogo>, put: (int, int, Payload) -> RappiSync.Http<Cuerpo>)
    ensures var r := Actualizar(a, localToName, nameToRappi, get, put);
            r.Vale? && r.valor.Enviado? ==>
              a.stock > 0
              && ResolverTienda(a.storeId, localToName, nameToRappi) == Vale(r.valor.storeRappi)
              && BuscarIds(a.ean, a.code, get) == Vale(Some(r.valor.idsFound))
              && (r.valor.idsFound.productId.Some? || r.valor.idsFound.listingId.Some?)
              && r.valor.sent == PayloadDe(a.stock, a.price, a.discountPrice)
              && r.valor.attempts != [] && r.valor.used == r.valor.attempts[|r.valor.attempts| - 1]
              && Aceptado(r.valor.used.status)
              && var b := Tras(a, r); b.isAvailable && !b.modificado
    ensures var r := Actualizar(a, localToName, nameToRappi, get, put);
            r.Vale? && r.valor.Omitido? ==> a.stock <= 0
  {
    var r := Actualizar(a, localToName, nameToRappi, get, put);
    if r.Vale? && r.valor.Enviado? {
      var tienda := ResolverTienda(a.storeId, localToName, nameToRappi).valor;
      var ids := BuscarIds(a.ean, a.code, get).valor.value;
      PutContrato(tienda, ids, PayloadDe(a.stock, a.price, a.discountPrice), put);
    }
  }

  /** An article that the EAN lookup finds without any id raises: the code is not tried. */
  lemma IdsVaciosNoSeReintentan(a: Articulo, localToName: map<string, string>, nameToRappi: map<string, int>,
                                get: string -> RappiSync.Http<Catalogo>, put: (int, int, Payload) -> RappiSync.Http<Cuerpo>)
    requires a.stock > 0 && ResolverTienda(a.storeId, localToName, nameToRappi).Vale?
    requires IdsDeSku(a.ean, get) == Vale(Some(Ids(None, None)))
    ensures Actualizar(a, localToName, nameToRappi, get, put) == Falla(IdsVacios(a.ean, a.code))
  {
    var tienda := ResolverTienda(a.storeId, localToName, nameToRappi).valor;
    assert BuscarIds(a.ean, a.code, get) == Vale(Some(Ids(None, None)));
    assert ConTienda(a, tienda, get, put) == Falla(IdsVacios(a.ean, a.code));
  }

  /** An `Articulos` row as the update sees it; the method writes its two flags. */
  class ArticuloRappi {
    var stock: int
    var storeId: Option<string>
    var ean: Option<string>
    var code: Option<string>
    var price: real
    var discountPrice: real
    var isAvailable: bool
    var modificado: bool

    constructor(a: Articulo)
      ensures Valor() == a
    {
      stock, storeId, ean, code := a.stock, a.storeId, a.ean, a.code;
      price, discountPrice, isAvailable, modificado := a.price, a.discountPrice, a.isAvailable, a.modificado;
    }

    function Valor(): Articulo
      reads this
    {
      Articulo(stock, storeId, ean, code, price, discountPrice, isAvailable, modificado)
    }

    /** `update_inventory_one_by_one`: the steps in order, the flags set and saved on the article. */
    method UpdateInventoryOneByOne(localToName: map<string, string>, nameToRappi: map<string, int>,
                                   get: string -> RappiSync.Http<Catalogo>, put: (int, int, Payload) -> RappiSync.Http<Cuerpo>)
      returns (r: Res<Informe>)
      modifies this
      ensures r == Actualizar(old(Valor()), localToName, nameToRappi, get, put)
      ensures Valor() == Tras(old(Valor()), r)
    {
      var a := Valor();
      r := CalcularEnvio(a, localToName, nameToRappi, get, put);
      if r.Vale? {
        // the skipped article is marked unavailable, a sent one available when it has stock
        isAvailable := if r.valor.Omitido? then false else stock > 0;
        modificado := false;
      }
    }
  }

  /** What `update_inventory_one_by_one` returns or raises, its guards in order. */
  method CalcularEnvio(a: Articulo, localToName: map<string, string>, nameToRappi: map<string, int>,
                       get: string -> RappiSync.Http<Catalogo>, put: (int, int, Payload) -> RappiSync.Http<Cuerpo>)
    returns (r: Res<Informe>)
    ensures r == Actualizar(a, localToName, nameToRappi, get, put)
  {
    if a.stock <= 0 {
      return Vale(Omitido(MOTIVO_OMITIDO, StoreLocal(a.storeId), a.ean));
    }
    var tienda := ResolverTienda(a.storeId, localToName, nameToRappi);
    if tienda.Falla? {
      return Falla(tienda.falla);
    }
    r := EnviarConTienda(a, tienda.valor, get, put);
  }

  /** The steps after the store is resolved: ids, payload, PUT, answer. */
  method EnviarConTienda(a: Articulo, tienda: int, get: string -> RappiSync.Http<Catalogo>, put: (int, int, Payload) -> RappiSync.Http<Cuerpo>)
    returns (r: Res<Informe>)
    ensures r == ConTienda(a, tienda, get, put)
  {
    var ids := GetIdsFromSku(a.ean, get);
    if ids.Vale? && ids.valor.None? {
      ids := GetIdsFromSku(a.code, get);
    }
    if ids.Falla? {
      return Falla(ids.falla);
    }
    if ids.valor.None? {
      return Falla(SinIds(a.ean, a.code));
    }
    var found := ids.valor.value;
    if found.productId.None? && found.listingId.None? {
      return Falla(IdsVacios(a.ean, a.code));
    }
    var payload := PayloadDe(a.stock, a.price, a.discountPrice);
    var envio := PutInventario(tienda, found, payload, put);
    if envio.Falla? {
      return Falla(envio.falla);
    }
    PutContrato(tienda, found, payload, put);
    var tried := envio.valor.intentos;
    var resp := envio.valor.ultima;
    if resp.None? || !Aceptado(resp.value.0) {
      var body := if resp.Some? then resp.value.1.texto else SIN_RESPUESTA;
      return Falla(PutFallido(tried, body));
    }
    var datos := DatosDe(resp.value.1);
    if datos.Falla? {
      return Falla(datos.falla);
    }
    r := Vale(Enviado(StoreLocal(a.storeId), tienda, tried[|tried| - 1], found, payload, datos.valor, tried));
  }
}

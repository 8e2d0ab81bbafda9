/**
 * `log_missing_product` (`automatizaciones/service/rappi_missing.py`): the
 * record of an article that Rappi's catalogue does not know, kept once per
 * (EAN, local store) and refreshed on every new failure. The table is a map
 * from that key to the stored record.
 */
module RappiMissing {
  import opened Resultados

  /** The longest error text kept. */
  const MAX_ERROR := 2000

  /** What the function reads from the article. */
  datatype Articulo = Articulo(
    ean: Option<string>, storeId: string, code: Option<string>, name: Option<string>,
    price: Option<real>, discountPrice: Option<real>, stock: Option<int>)

  /** The fields written from `defaults`. */
  datatype Datos = Datos(
    code: Option<string>, storeName: Option<string>, rappiStoreId: Option<int>, name: Option<string>,
    price: real, discountPrice: real, stock: int, lastError: string, lookupsDebug: Option<string>,
    flaggedForCreation: bool, resolved: bool)

  /** A stored `MissingRappiProduct`: the written fields and the attempt counter. */
  datatype Registro = Registro(datos: Datos, attempts: Option<int>)

  type Clave = (string, string)

  /** `x or 0` for a number that may be missing. */
  function CeroSiFalso(x: Option<real>): (r: real)
    ensures x.Some? && x.value != 0.0 ==> r == x.value
    ensures x.None? ==> r == 0.0
  {
    if x.Some? then x.value else 0.0
  }

  /** The lookup key: the EAN (missing or empty counts as empty) and the local store as text. */
  function ClaveDe(a: Articulo): (k: Clave)
    ensures k.1 == a.storeId
    ensures a.ean.Some? ==> k.0 == a.ean.value
    ensures a.ean.None? ==> k.0 == ""
  {
    (if a.ean.Some? then a.ean.value else "", a.storeId)
  }

  /** `error[:2000]`. */
  function Recortar(error: string): (r: string)
    ensures |r| <= MAX_ERROR && |r| <= |error| && r == error[..|r|]
    ensures |error| <= MAX_ERROR ==> r == error
  {
    if |error| <= MAX_ERROR then error else error[..MAX_ERROR]
  }

  /** The `defaults` dict: the article's data, zero for missing money or stock, the error cut short, flagged and unresolved. */
  function Defaults(a: Articulo, storeName: Option<string>, rappiStoreId: Option<int>, error: string, debug: Option<string>): (d: Datos)
    ensures d.flaggedForCreation && !d.resolved
    ensures |d.lastError| <= MAX_ERROR
    ensures a.stock.None? ==> d.stock == 0
    ensures a.price.None? ==> d.price == 0.0
  {
    Datos(a.code, storeName, rappiStoreId, a.name, CeroSiFalso(a.price), CeroSiFalso(a.discountPrice),
          if a.stock.Some? then a.stock.value else 0, Recortar(error), debug, true, false)
  }

  /**
   * The table after one call. `inicial` is the attempt counter a new row
   * takes from the model's own default, which is not part of this model.
   */
  function Registrar(t: map<Clave, Registro>, a: Articulo, storeName: Option<string>, rappiStoreId: Option<int>,
                     error: string, debug: Option<string>, inicial: Option<int>): map<Clave, Registro>
  {
    var k := ClaveDe(a);
    var d := Defaults(a, storeName, rappiStoreId, error, debug);
    if k !in t then t[k := Registro(d, inicial)]
    else t[k := Registro(d, Some(t[k].attempts.GetOr(0) + 1))]
  }

  /**
   * Only the article's key changes, so no key is ever stored twice; a new
   * row is flagged and unresolved, an existing one gets every default
   * overwritten and one more attempt (a null counter counting as zero).
   */
  lemma RegistrarContrato(t: map<Clave, Registro>, a: Articulo, storeName: Option<string>, rappiStoreId: Option<int>,
                          error: string, debug: Option<string>, inicial: Option<int>)
    ensures var r := Registrar(t, a, storeName, rappiStoreId, error, debug, inicial);
            var k := ClaveDe(a);
            r.Keys == t.Keys + {k}
            && (forall k2 :: k2 in t && k2 != k ==> r[k2] == t[k2])
            && r[k].datos == Defaults(a, storeName, rappiStoreId, error, debug)
            && r[k].datos.flaggedForCreation && !r[k].datos.resolved
            && (k !in t ==> r[k].attempts == inicial)
            && (k in t && t[k].attempts.None? ==> r[k].attempts == Some(1))
            && (k in t && t[k].attempts.Some? ==> r[k].attempts == Some(t[k].attempts.value + 1))
  {
  }

  /** Two failures of the same article leave one row whose counter went up by one on the second. */
  lemma DosFallos(t: map<Clave, Registro>, a: Articulo, e1: string, e2: string, inicial: Option<int>)
    requires ClaveDe(a) !in t
    ensures var t2 := Registrar(Registrar(t, a, None, None, e1, None, inicial), a, None, None, e2, None, inicial);
            |t2.Keys| == |t.Keys| + 1
            && t2[ClaveDe(a)].attempts == Some(inicial.GetOr(0) + 1)
            && t2[ClaveDe(a)].datos.lastError == Recortar(e2)
  {
    var k := ClaveDe(a);
    assert (t[k := Registro(Defaults(a, None, None, e1, None), inicial)]).Keys == t.Keys + {k};
  }

  /** The stored table and the get-or-create that updates it. */
  class TablaFaltantes {
    var filas: map<Clave, Registro>

    constructor (filas0: map<Clave, Registro>)
      ensures filas == filas0
    {
      filas := filas0;
    }

    /** `log_missing_product`. */
    method LogMissingProduct(a: Articulo, storeName: Option<string>, rappiStoreId: Option<int>,
                             error: string, debug: Option<string>, inicial: Option<int>)
      modifies this
      ensures filas == Registrar(old(filas), a, storeName, rappiStoreId, error, debug, inicial)
    {
      var defaults := Defaults(a, storeName, rappiStoreId, error, debug);
      var k := (if a.ean.Some? then a.ean.value else "", a.storeId);
      if k !in filas {
        filas := filas[k := Registro(defaults, inicial)];
      } else {
        var obj := filas[k];
        var intentos := (if obj.attempts.Some? then obj.attempts.value else 0) + 1;
        obj := obj.(attempts := Some(intentos));
        obj := obj.(datos := defaults);
        filas := filas[k := obj];
      }
    }
  }
}

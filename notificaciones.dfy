/**
 * The seller notification of a new suggestion lot
 * (`Compras/services/notifications.py`): the brand's visual assets with
 * their fall-backs, the recipients collected from the seller assignments of
 * the (supplier, brand) pair, and the subject and plain-text body of the
 * message. Rendering the HTML and handing the message to the mail backend
 * are effects outside the model; the admin URL is an input.
 */
module Notificaciones {
  import opened Resultados
  import opened Textos

  /** What reading an attribute gives: its value, no such attribute, or an exception raised by the lookup. */
  datatype Lectura<T> = Presente(valor: T) | Ausente | Falla

  /** `_safe_get(obj, attr, default)`: the attribute's value, or the default when it is missing or its lookup raises. */
  function SafeGet<T>(l: Lectura<T>, defecto: T): (r: T)
    ensures l.Presente? ==> r == l.valor
    ensures !l.Presente? ==> r == defecto
  {
    if l.Presente? then l.valor else defecto
  }

  /** A Python value as far as the assets care: `None`, a string, or another object with its truth value. */
  datatype Py = Nulo | Cad(s: string) | Obj(verdad: bool)

  /** Python truthiness: `None` and `""` are false. */
  predicate Verdadero(p: Py)
  {
    match p
    case Nulo => false
    case Cad(s) => s != ""
    case Obj(b) => b
  }

  /**
   * The brand object as `_brand_assets` sees it. `urlDelLogo` is
   * `getattr(marca.logo, "url", None)` and `logoCalculado` the outcome of
   * calling `marca.get_logo_url()`; each is only used when reached.
   */
  datatype MarcaObj = MarcaObj(
    logoUrl: Lectura<Py>,
    logo: Lectura<Py>,
    urlDelLogo: Py,
    getLogoUrl: Lectura<Py>,
    logoCalculado: Result<Py>,
    colorHex: Lectura<Py>,
    nombre: Lectura<string>)

  const LOGO_MERCASUR: string := "https://notificaciones.mercasur.com.co:9180/logo.png"
  const COLOR_MERCASUR: string := "#2ca646"

  /** A colour is kept when it is a string that starts with `#` and has 4 or 7 characters. */
  predicate ColorValido(c: Py)
  {
    c.Cad? && EmpiezaCon(c.s, "#") && (|c.s| == 4 || |c.s| == 7)
  }

  datatype Activos = Activos(logo: Py, color: string)

  /** `x and y` of Python: `x` when it is false, else `y`. */
  function Y(x: Py, y: Py): (r: Py)
    ensures Verdadero(r) <==> Verdadero(x) && Verdadero(y)
  {
    if Verdadero(x) then y else x
  }

  /** The logo candidates of the `or` chain, each evaluated only when the ones before were false. */
  function LogoDe(m: MarcaObj): (r: Result<Py>)
    ensures r.Ok? ==> Verdadero(r.value)
    ensures Verdadero(SafeGet(m.logoUrl, Nulo)) ==> r == Ok(SafeGet(m.logoUrl, Nulo))
    ensures !Verdadero(SafeGet(m.logoUrl, Nulo)) && Verdadero(Y(SafeGet(m.logo, Nulo), m.urlDelLogo))
            ==> r == Ok(m.urlDelLogo)
  {
    var primero := SafeGet(m.logoUrl, Nulo);
    var segundo := Y(SafeGet(m.logo, Nulo), m.urlDelLogo);
    if Verdadero(primero) then Ok(primero)
    else if Verdadero(segundo) then Ok(segundo)
    else
      var hayMetodo := SafeGet(m.getLogoUrl, Nulo);
      var tercero := if Verdadero(hayMetodo) then m.logoCalculado else Ok(hayMetodo);
      if tercero.Err? then Err(tercero.error)
      else if Verdadero(tercero.value) then tercero
      else Ok(Cad(LOGO_MERCASUR))
  }

  /** `_brand_assets(marca)`: the first true logo candidate or Mercasur's logo, and the brand colour or the corporate green. */
  function BrandAssets(m: MarcaObj): (r: Result<Activos>)
    ensures r.Ok? <==> LogoDe(m).Ok?
    ensures r.Ok? ==> r.value.logo == LogoDe(m).value
    ensures r.Ok? ==> ColorValido(Cad(r.value.color))
    ensures r.Ok? && ColorValido(SafeGet(m.colorHex, Nulo)) ==> r.value.color == SafeGet(m.colorHex, Nulo).s
    ensures r.Ok? && !ColorValido(SafeGet(m.colorHex, Nulo)) ==> r.value.color == COLOR_MERCASUR
  {
    var logo := LogoDe(m);
    var c := SafeGet(m.colorHex, Nulo);
    var color := if ColorValido(c) then c.s else COLOR_MERCASUR;
    assert ColorValido(Cad(COLOR_MERCASUR)) by {
      assert COLOR_MERCASUR[..1] == "#";
    }
    if logo.Err? then Err(logo.error) else Ok(Activos(logo.value, color))
  }

  /** Without any logo attribute the Mercasur logo is used. */
  lemma LogoPorDefecto(m: MarcaObj)
    requires !m.logoUrl.Presente? && !m.logo.Presente? && !m.getLogoUrl.Presente?
    ensures LogoDe(m) == Ok(Cad(LOGO_MERCASUR))
  {
  }

  /** A failing `get_logo_url()` only matters when the two earlier candidates are false. */
  lemma LogoMetodoFalla(m: MarcaObj)
    requires m.logoCalculado.Err?
    ensures LogoDe(m).Err? <==>
              !Verdadero(SafeGet(m.logoUrl, Nulo)) && !Verdadero(Y(SafeGet(m.logo, Nulo), m.urlDelLogo))
              && Verdadero(SafeGet(m.getLogoUrl, Nulo))
  {
  }

  // ------------------------------------------------------------ recipients

  /** An e-mail address worth sending to: not empty and with an `@`. */
  predicate CorreoValido(e: string)
  {
    e != "" && '@' in e
  }

  /** `{email.strip() for a in asignaciones}`, one stripped e-mail per assignment. */
  function Limpios(correos: seq<string>): (r: seq<string>)
    ensures |r| == |correos| && forall i :: 0 <= i < |r| ==> r[i] == Strip(correos[i])
  {
    seq(|correos|, i requires 0 <= i < |correos| => Strip(correos[i]))
  }

  /** No stripped e-mail has a blank left at either end. */
  lemma LimpiosLimpios(correos: seq<string>, d: string)
    requires d in Limpios(correos)
    ensures Strip(d) == d
  {
    var ls := Limpios(correos);
    var i :| 0 <= i < |ls| && ls[i] == d;
    StripIdempotente(correos[i]);
  }

  lemma StrippedTodos(correos: seq<string>)
    ensures forall i :: 0 <= i < |correos| ==> Strip(Strip(correos[i])) == Strip(correos[i])
  {
    forall i | 0 <= i < |correos| ensures Strip(Strip(correos[i])) == Strip(correos[i]) {
      StripIdempotente(correos[i]);
    }
  }

  /** `{e for e in emails if e and "@" in e}`. */
  function Validos(ls: seq<string>): (r: set<string>)
    ensures forall d :: d in r ==> CorreoValido(d) && d in ls
  {
    set i | 0 <= i < |ls| && CorreoValido(ls[i]) :: ls[i]
  }

  /** The recipients: the valid addresses among the stripped e-mails, each once. */
  function Destinatarios(correos: seq<string>): (r: set<string>)
    ensures forall d :: d in r ==> CorreoValido(d) && Strip(d) == d
  {
    StrippedTodos(correos);
    Validos(Limpios(correos))
  }

  /** An address is a recipient exactly when it is valid and some seller's e-mail strips to it. */
  lemma DestinatarioSi(correos: seq<string>, d: string)
    ensures d in Destinatarios(correos) <==> CorreoValido(d) && d in Limpios(correos)
  {
    var ls := Limpios(correos);
    if CorreoValido(d) && d in ls {
      var i :| 0 <= i < |ls| && ls[i] == d;
    }
  }

  /** Repeating an address adds no recipient. */
  lemma {:induction false} ValidosRepetido(ls: seq<string>, e: string)
    ensures Validos(ls + [e, e]) == Validos(ls + [e])
  {
    var a := ls + [e, e];
    var b := ls + [e];
    forall d | d in Validos(a) ensures d in Validos(b) {
      var i :| 0 <= i < |a| && CorreoValido(a[i]) && a[i] == d;
      var k := if i < |b| then i else |b| - 1;
      assert b[k] == a[i];
    }
    forall d | d in Validos(b) ensures d in Validos(a) {
      var i :| 0 <= i < |b| && CorreoValido(b[i]) && b[i] == d;
      assert a[i] == b[i];
    }
  }

  /** The same address from two sellers, even with a blank in front, yields one recipient. */
  lemma DestinatariosSinDuplicados(correos: seq<string>, e: string)
    ensures Destinatarios(correos + [e, e]) == Destinatarios(correos + [e])
    ensures Destinatarios(correos + [e, " " + e]) == Destinatarios(correos + [e])
  {
    LimpiosMas(correos, e);
    LimpiosDos(correos, e, e);
    LimpiosDos(correos, e, " " + e);
    StripBlancoInicial(e);
    ValidosRepetido(Limpios(correos), Strip(e));
  }

  lemma LimpiosDos(correos: seq<string>, e: string, f: string)
    ensures Limpios(correos + [e, f]) == Limpios(correos) + [Strip(e), Strip(f)]
  {
    var a := Limpios(correos + [e, f]);
    var b := Limpios(correos) + [Strip(e), Strip(f)];
    forall i | 0 <= i < |a|
      ensures a[i] == b[i]
    {
      assert (correos + [e, f])[i] == if i < |correos| then correos[i] else if i == |correos| then e else f;
    }
    assert |a| == |b|;
    assert a == b;
  }

  lemma LimpiosMas(correos: seq<string>, e: string)
    ensures Limpios(correos + [e]) == Limpios(correos) + [Strip(e)]
  {
    var a := Limpios(correos + [e]);
    var b := Limpios(correos) + [Strip(e)];
    forall i | 0 <= i < |a|
      ensures a[i] == b[i]
    {
      assert (correos + [e])[i] == if i < |correos| then correos[i] else e;
    }
  }

  // ------------------------------------------------------------ the message

  datatype Lote = Lote(id: int, nombre: Lectura<string>)

  /** `_from_email()`: the configured sender or the notifications address. */
  function Remitente(configurado: Option<string>): (r: string)
    ensures configurado.Some? ==> r == configurado.value
    ensures configurado.None? ==> CorreoValido(r)
  {
    if configurado.Some? then configurado.value else "notificaciones@mercasur.com.co"
  }

  /** `f"[Sugerido] Nuevo lote #{lote.id} · {marca_nombre} · {proveedor_nombre}"`. */
  function Asunto(id: int, marca: string, proveedor: string): (r: string)
    ensures EmpiezaCon(r, "[Sugerido] Nuevo lote #")
  {
    "[Sugerido] Nuevo lote #" + IntATexto(id) + " · " + marca + " · " + proveedor
  }

  /** The plain-text alternative of the message. */
  function Texto(lote: Lote, marca: string, proveedor: string, url: string): string
  {
    var id := IntATexto(lote.id);
    "Nuevo lote de sugerido #" + id + "\n"
      + "Estructura: " + marca + " · Proveedor: " + proveedor + "\n\n"
      + "Lote: " + SafeGet(lote.nombre, "Lote #" + id) + "\n"
      + "ID: " + id + "\n\n"
      + "Revisar en el panel: " + url + "\n\n"
      + "Mercasur • Cada día mejor"
  }

  datatype Envio =
    | NoEnviado
    | Enviado(asunto: string, texto: string, remitente: string, para: set<string>, responderA: string, activos: Activos)

  /**
   * `notificar_vendedor_lote_asignado`: `correos` are the e-mails of the
   * sellers assigned to the (supplier, brand) pair, one per assignment.
   * An exception raised while building the HTML body propagates.
   */
  function NotificarVendedor(correos: seq<string>, proveedor: Lectura<string>, marca: MarcaObj, lote: Lote,
                             url: string, configurado: Option<string>): (r: Result<Envio>)
    ensures r == Ok(NoEnviado) <==> Destinatarios(correos) == {}
    ensures correos == [] ==> r == Ok(NoEnviado)
    ensures r.Err? <==> Destinatarios(correos) != {} && BrandAssets(marca).Err?
    ensures r.Ok? && r.value.Enviado? ==>
              && r.value.para == Destinatarios(correos) && r.value.para != {}
              && r.value.asunto == Asunto(lote.id, SafeGet(marca.nombre, "Marca"), SafeGet(proveedor, "Proveedor"))
              && r.value.remitente == r.value.responderA == Remitente(configurado)
              && r.value.activos == BrandAssets(marca).value
  {
    if correos == [] then Ok(NoEnviado)
    else
      var para := Destinatarios(correos);
      if para == {} then Ok(NoEnviado)
      else
        var marcaNombre := SafeGet(marca.nombre, "Marca");
        var proveedorNombre := SafeGet(proveedor, "Proveedor");
        var asunto := Asunto(lote.id, marcaNombre, proveedorNombre);
        var activos := BrandAssets(marca);
        if activos.Err? then Err(activos.error)
        else
          var de := Remitente(configurado);
          Ok(Enviado(asunto, Texto(lote, marcaNombre, proveedorNombre, url), de, para, de, activos.value))
  }

  /** Sellers whose e-mails are all blank or lack an `@` get nothing, and nothing is raised. */
  lemma SinCorreosValidos(correos: seq<string>, proveedor: Lectura<string>, marca: MarcaObj, lote: Lote,
                          url: string, configurado: Option<string>)
    requires forall i :: 0 <= i < |correos| ==> !CorreoValido(Strip(correos[i]))
    ensures NotificarVendedor(correos, proveedor, marca, lote, url, configurado) == Ok(NoEnviado)
  {
  }
}

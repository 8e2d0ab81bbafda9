/**
 * The customer mails of `clientes/correo.py`: the welcome or update notice
 * sent to a customer, a generic HTML mail, and a templated mail. Template
 * rendering is done by the framework: the rendered body is a parameter.
 * Sending is the parameter `envio`, the exception the backend raises if any.
 */
module CorreoClientes {
  import opened Resultados
  import opened Textos

  const ASUNTO_REGISTRO := "Bienvenido a mercasur (Registro Exitoso)"
  const PLANTILLA_REGISTRO := "clientenuevo.html"
  const ASUNTO_ACTUALIZACION := "Confirmación de Actualización de Información en mercasur"
  const PLANTILLA_ACTUALIZACION := "clienteactualizado.html"

  /** A message handed to the mail backend; a recipient may be `None` when the customer has no address. */
  datatype Mensaje = Mensaje(asunto: string, plantilla: string, para: seq<Option<string>>)

  /** `enviar_correo`: the welcome mail for a customer not yet updated, the update notice otherwise, to the customer's address alone. */
  function CorreoCliente(actualizado: bool, correo: Option<string>): (m: Mensaje)
    ensures m.para == [correo]
    ensures !actualizado <==> m.asunto == ASUNTO_REGISTRO && m.plantilla == PLANTILLA_REGISTRO
    ensures actualizado <==> m.asunto == ASUNTO_ACTUALIZACION && m.plantilla == PLANTILLA_ACTUALIZACION
  {
    if !actualizado then Mensaje(ASUNTO_REGISTRO, PLANTILLA_REGISTRO, [correo])
    else Mensaje(ASUNTO_ACTUALIZACION, PLANTILLA_ACTUALIZACION, [correo])
  }

  /** The `destinatarios` argument of `enviar_correo_html`. */
  datatype Destinos = Ninguno | Texto(s: string) | Lista(xs: seq<string>)

  /** The non-empty pieces, in order. */
  function NoVacias(ps: seq<string>): (r: seq<string>)
    ensures |r| <= |ps|
    ensures forall i :: 0 <= i < |r| ==> r[i] != ""
  {
    if ps == [] then []
    else NoVacias(ps[..|ps| - 1]) + (if ps[|ps| - 1] != "" then [ps[|ps| - 1]] else [])
  }

  lemma {:induction false} NoVaciasMiembro(ps: seq<string>, e: string)
    ensures e in NoVacias(ps) <==> e in ps && e != ""
  {
    if ps != [] {
      NoVaciasMiembro(ps[..|ps| - 1], e);
      assert ps == ps[..|ps| - 1] + [ps[|ps| - 1]];
    }
  }

  /** A string is split on commas, trimmed and emptied of blanks, with no check for an `@`; a list is used as given. */
  function Normalizar(d: Destinos): seq<string>
  {
    match d
    case Ninguno => []
    case Texto(s) => NoVacias(Piezas(s, ','))
    case Lista(xs) => xs
  }

  lemma NormalizarTexto(s: string, e: string)
    ensures e in Normalizar(Texto(s)) <==> e in Piezas(s, ',') && e != ""
    ensures e in Normalizar(Texto(s)) ==> ',' !in e && Strip(e) == e
  {
    var ps := Piezas(s, ',');
    NoVaciasMiembro(ps, e);
    if e in ps {
      PiezaMiembroLimpia(s, ',', e);
    }
  }

  /** A recipient need not be an address: any non-empty piece is kept. */
  lemma SinArrobaSeConserva()
    ensures Normalizar(Texto("ventas")) == ["ventas"]
  {
    UnaPiezaSeConserva("ventas");
  }

  /** A non-empty text with no comma and no surrounding blanks is the one recipient. */
  lemma UnaPiezaSeConserva(s: string)
    requires s != "" && ',' !in s && !EsEspacio(s[0]) && !EsEspacio(s[|s| - 1])
    ensures Normalizar(Texto(s)) == [s]
  {
    SplitSinSeparador(s, ',');
    StripSinBordes(s);
    var ps := Piezas(s, ',');
    assert ps == [s];
    assert ps[..0] == [];
  }

  /** The message `enviar_correo_html` builds, body given. */
  datatype Html = Html(asunto: string, cuerpo: string, para: seq<string>)

  /**
   * `enviar_correo_html`: whatever the backend does, the call returns
   * normally, because a send error is caught and only printed.
   */
  function EnviarCorreoHtml(asunto: string, d: Destinos, cuerpo: string, envio: Option<string>): (r: Result<Html>)
    ensures r.Ok? && r.value.para == Normalizar(d) && r.value.cuerpo == cuerpo && r.value.asunto == asunto
  {
    Ok(Html(asunto, cuerpo, Normalizar(d)))
  }

  /** The argument of `enviar_correo_con_template`: a list of addresses or one string. */
  datatype Destinatario = Cadena(s: string) | Varios(xs: seq<string>)

  /** `list(destinatario)`: a string becomes the list of its characters, each one a "recipient". */
  function ListaDe(d: Destinatario): (r: seq<string>)
    ensures d.Varios? ==> r == d.xs
    ensures d.Cadena? ==> |r| == |d.s| && forall i :: 0 <= i < |r| ==> r[i] == [d.s[i]]
  {
    match d
    case Varios(xs) => xs
    case Cadena(s) => seq(|s|, i requires 0 <= i < |s| => [s[i]])
  }

  /** A single address passed as a string is mailed to one-character "addresses", none of which is the address. */
  lemma CadenaSeParte(s: string)
    requires |s| >= 2
    ensures s !in ListaDe(Cadena(s))
    ensures forall r :: r in ListaDe(Cadena(s)) ==> |r| == 1
  {
  }

  /** `enviar_correo_con_template`: the body rendered elsewhere, the recipients as `list()` gives them; a send error propagates. */
  function EnviarConTemplate(asunto: string, d: Destinatario, cuerpo: string, envio: Option<string>): (r: Result<Html>)
    ensures envio.Some? <==> r.Err?
    ensures r.Ok? ==> r.value == Html(asunto, cuerpo, ListaDe(d))
  {
    if envio.Some? then Err(envio.value) else Ok(Html(asunto, cuerpo, ListaDe(d)))
  }
}

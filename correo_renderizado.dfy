/**
 * `enviar_correo_renderizado` (`automatizaciones/utils.py`): renders an HTML
 * template held as text and mails it. Rendering and sending are done by the
 * framework; here they are the parameters `render` (the rendered body or the
 * exception raised) and `envio` (the number of messages sent or the
 * exception raised).
 */
module CorreoRenderizado {
  import opened Resultados
  import opened Textos

  const PLANTILLA_VACIA := "La plantilla HTML (cuerpo_html) no puede estar vacía."

  /** The `destinatarios` argument: absent, a comma-separated string, or a list used as given. */
  datatype Destinos = Ninguno | Texto(s: string) | Lista(xs: seq<string>)

  /** The message handed to the mail backend. */
  datatype Mensaje = Mensaje(asunto: string, cuerpo: string, para: seq<string>)

  /** An address kept from a string: not empty and holding an `@`. */
  predicate Aceptable(e: string)
  {
    e != "" && '@' in e
  }

  /** The pieces that are acceptable, in order. */
  function Aceptables(ps: seq<string>): (r: seq<string>)
    ensures |r| <= |ps|
    ensures forall i :: 0 <= i < |r| ==> Aceptable(r[i])
  {
    if ps == [] then []
    else Aceptables(ps[..|ps| - 1]) + (if Aceptable(ps[|ps| - 1]) then [ps[|ps| - 1]] else [])
  }

  lemma {:induction false} AceptablesMiembro(ps: seq<string>, e: string)
    ensures e in Aceptables(ps) <==> e in ps && Aceptable(e)
  {
    if ps != [] {
      AceptablesMiembro(ps[..|ps| - 1], e);
      assert ps == ps[..|ps| - 1] + [ps[|ps| - 1]];
    }
  }

  /** The recipient list after normalisation. */
  function Normalizar(d: Destinos): seq<string>
  {
    match d
    case Ninguno => []
    case Texto(s) => Aceptables(Piezas(s, ','))
    case Lista(xs) => xs
  }

  /**
   * From a string, the recipients are exactly the stripped comma-separated
   * pieces that are non-empty and hold an `@`, none with a comma or
   * surrounding blanks (a list is not filtered).
   */
  lemma NormalizarTexto(s: string, e: string)
    ensures e in Normalizar(Texto(s)) <==> e in Piezas(s, ',') && Aceptable(e)
    ensures e in Normalizar(Texto(s)) ==> ',' !in e && Strip(e) == e
  {
    var ps := Piezas(s, ',');
    AceptablesMiembro(ps, e);
    if e in ps {
      PiezaMiembroLimpia(s, ',', e);
    }
  }

  /** The outcome (the boolean returned or the exception raised) and the message handed over, if any. */
  datatype Salida = Salida(r: Result<bool>, enviado: Option<Mensaje>)

  function EnviarCorreoRenderizado(asunto: string, destinatarios: Destinos, plantilla: string,
                                   render: Result<string>, envio: Result<nat>): Salida
  {
    var para := Normalizar(destinatarios);
    if para == [] then Salida(Ok(false), None)
    else if plantilla == "" then Salida(Err(PLANTILLA_VACIA), None)
    else if render.Err? then Salida(Err(render.error), None)
    else
      var m := Mensaje(asunto, render.value, para);
      match envio
      case Err(e) => Salida(Err(e), Some(m))
      case Ok(n) => Salida(Ok(n > 0), Some(m))
  }

  /**
   * No recipients gives `False` before anything is rendered or sent; an
   * empty template raises `ValueError`; otherwise the result is whether the
   * backend reports at least one message sent, to the normalised recipients.
   */
  lemma EnviarContrato(asunto: string, destinatarios: Destinos, plantilla: string,
                       render: Result<string>, envio: Result<nat>)
    ensures var s := EnviarCorreoRenderizado(asunto, destinatarios, plantilla, render, envio);
            (Normalizar(destinatarios) == [] ==> s == Salida(Ok(false), None))
            && (Normalizar(destinatarios) != [] && plantilla == "" ==> s == Salida(Err(PLANTILLA_VACIA), None))
            && (s.enviado.Some? ==> s.enviado.value.para == Normalizar(destinatarios) != [] && render.Ok?
                                    && s.enviado.value.cuerpo == render.value)
            && (s.r == Ok(true) <==> s.enviado.Some? && envio.Ok? && envio.value > 0)
            && (s.r.Ok? && s.enviado.None? ==> s.r == Ok(false))
  {
  }

  /** A string with no acceptable address sends nothing. */
  lemma SinArroba(asunto: string, s: string, plantilla: string, render: Result<string>, envio: Result<nat>)
    requires '@' !in s
    ensures EnviarCorreoRenderizado(asunto, Texto(s), plantilla, render, envio) == Salida(Ok(false), None)
  {
    var ps := Piezas(s, ',');
    forall i | 0 <= i < |ps| ensures !Aceptable(ps[i]) {
      SplitSubcadena(s, ',', i);
      StripSubcadena(Split(s, ',')[i]);
    }
    AceptablesNinguno(ps);
  }

  lemma {:induction false} AceptablesNinguno(ps: seq<string>)
    requires forall i :: 0 <= i < |ps| ==> !Aceptable(ps[i])
    ensures Aceptables(ps) == []
  {
    if ps != [] {
      AceptablesNinguno(ps[..|ps| - 1]);
    }
  }

  /** The normalisation and the guards in the order the program takes them. */
  method Enviar(asunto: string, destinatarios: Destinos, plantilla: string,
                render: Result<string>, envio: Result<nat>) returns (s: Salida)
    ensures s == EnviarCorreoRenderizado(asunto, destinatarios, plantilla, render, envio)
  {
    var para: seq<string>;
    match destinatarios {
      case Ninguno => para := [];
      case Lista(xs) => para := xs;
      case Texto(t) =>
        var ps := Piezas(t, ',');
        para := [];
        var i := 0;
        while i < |ps|
          invariant 0 <= i <= |ps|
          invariant para == Aceptables(ps[..i])
        {
          if ps[i] != "" && '@' in ps[i] {
            para := para + [ps[i]];
          }
          assert ps[..i + 1][..i] == ps[..i];
          i := i + 1;
        }
        assert ps[..i] == ps;
    }
    assert para == Normalizar(destinatarios);
    if para == [] {
      return Salida(Ok(false), None);
    }
    if plantilla == "" {
      return Salida(Err(PLANTILLA_VACIA), None);
    }
    if render.Err? {
      return Salida(Err(render.error), None);
    }
    var correo := Mensaje(asunto, render.value, para);
    if envio.Err? {
      return Salida(Err(envio.error), Some(correo));
    }
    s := Salida(Ok(envio.value > 0), Some(correo));
  }
}

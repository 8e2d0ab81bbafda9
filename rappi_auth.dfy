/**
 * `get_rappi_token` (`automatizaciones/service/rappi_auth.py`): a bearer
 * token for the Rappi API, kept in a process-wide cache until shortly before
 * it expires. The clock and the login request are parameters: `Login` is
 * what the POST to the login endpoint answers.
 */
module RappiAuth {
  import opened Resultados
  import opened Textos

  const FALTAN_CREDENCIALES := "Faltan credenciales: define RAPPI_CLIENT_ID y RAPPI_CLIENT_SECRET."
  const SIN_TOKEN := "Respuesta de login sin 'access_token'."
  /** Seconds assumed when the login answer carries no `expires_in`. */
  const EXPIRA_POR_DEFECTO := 3000
  /** Seconds taken off the announced lifetime. */
  const MARGEN := 30
  /** The shortest lifetime the cache keeps a token for. */
  const MINIMO := 60

  /** The answer of the login request: an HTTP error, or its JSON body's two fields. */
  datatype Login =
    | ErrorHttp(status: int, texto: string)
    | Cuerpo(accessToken: Option<string>, expiresIn: Option<int>)

  /** The module-level `_TOKEN_CACHE`. */
  datatype Cache = Cache(valor: Option<string>, exp: real)

  const CACHE_INICIAL := Cache(None, 0.0)

  /** Python truthiness of an optional string. */
  predicate Lleno(s: Option<string>)
  {
    s.Some? && s.value != ""
  }

  /** The cached token is served: not forced, present and not yet expired. */
  predicate Vigente(c: Cache, forzar: bool, ahora: real)
  {
    !forzar && Lleno(c.valor) && ahora < c.exp
  }

  /** When a token obtained at `ahora` stops being served: the announced lifetime less the margin, at least a minute. */
  function Expiracion(ahora: real, expiresIn: Option<int>): (e: real)
    ensures e >= ahora + MINIMO as real
    ensures e >= ahora + (expiresIn.GetOr(EXPIRA_POR_DEFECTO) - MARGEN) as real
    ensures e == ahora + MINIMO as real || e == ahora + (expiresIn.GetOr(EXPIRA_POR_DEFECTO) - MARGEN) as real
  {
    var n := expiresIn.GetOr(EXPIRA_POR_DEFECTO);
    ahora + (if n - MARGEN > MINIMO then n - MARGEN else MINIMO) as real
  }

  function MensajeHttp(status: int, texto: string): string
  {
    "Error autenticando en Rappi: " + IntATexto(status) + " " + texto
  }

  /**
   * One call: the token or the `RappiAuthError` raised, whether a login
   * request was made, and the cache afterwards. `login` is only looked at
   * when a request is made.
   */
  datatype Pedido = Pedido(token: Result<string>, pidio: bool, cache: Cache)

  function ObtenerToken(c: Cache, credenciales: bool, forzar: bool, ahora: real, login: Login): (p: Pedido)
  {
    if !credenciales then Pedido(Err(FALTAN_CREDENCIALES), false, c)
    else if Vigente(c, forzar, ahora) then Pedido(Ok(c.valor.value), false, c)
    else
      match login
      case ErrorHttp(st, tx) => Pedido(Err(MensajeHttp(st, tx)), true, c)
      case Cuerpo(tok, exp) =>
        if !Lleno(tok) then Pedido(Err(SIN_TOKEN), true, c)
        else Pedido(Ok(tok.value), true, Cache(tok, Expiracion(ahora, exp)))
  }

  /** The cases of a call: no credentials fail first, a live cache answers without a request, and only a good login changes the cache. */
  lemma ObtenerTokenCasos(c: Cache, credenciales: bool, forzar: bool, ahora: real, login: Login)
    ensures var p := ObtenerToken(c, credenciales, forzar, ahora, login);
            (!credenciales ==> p.token == Err(FALTAN_CREDENCIALES) && !p.pidio)
            && (credenciales ==> (p.pidio <==> !Vigente(c, forzar, ahora)))
            && (credenciales && Vigente(c, forzar, ahora) ==> p.token == Ok(c.valor.value))
            && (p.token.Err? ==> p.cache == c)
            && (p.cache != c ==> p.pidio && p.token.Ok? && login.Cuerpo? && p.cache.valor == login.accessToken)
            && (p.pidio && login.Cuerpo? && !Lleno(login.accessToken) ==> p.token == Err(SIN_TOKEN))
            && (p.pidio && login.ErrorHttp? ==> p.token.Err?)
  {
  }

  /** `force_refresh` always logs in again, however fresh the cache. */
  lemma ForzarSiemprePide(c: Cache, ahora: real, login: Login)
    ensures ObtenerToken(c, true, true, ahora, login).pidio
  {
  }

  /**
   * A token obtained by a login is served from the cache, with no request,
   * to every later call for at least the following minute.
   */
  lemma TokenReutilizado(c: Cache, t1: real, login: Login, t2: real, otro: Login)
    requires ObtenerToken(c, true, false, t1, login).pidio && ObtenerToken(c, true, false, t1, login).token.Ok?
    requires t1 <= t2 < t1 + MINIMO as real
    ensures var p1 := ObtenerToken(c, true, false, t1, login);
            var p2 := ObtenerToken(p1.cache, true, false, t2, otro);
            !p2.pidio && p2.token == p1.token && p2.cache == p1.cache
  {
  }

  /** The process-wide cache and the call that reads and overwrites it. */
  class CacheToken {
    var valor: Option<string>
    var exp: real

    constructor ()
      ensures Cache(valor, exp) == CACHE_INICIAL
    {
      valor := None;
      exp := 0.0;
    }

    /** `get_rappi_token`. */
    method GetRappiToken(credenciales: bool, forzar: bool, ahora: real, login: Login) returns (r: Result<string>, pidio: bool)
      modifies this
      ensures Pedido(r, pidio, Cache(valor, exp)) == ObtenerToken(old(Cache(valor, exp)), credenciales, forzar, ahora, login)
    {
      pidio := false;
      if !credenciales {
        return Err(FALTAN_CREDENCIALES), false;
      }
      if !forzar && valor.Some? && valor.value != "" && ahora < exp {
        return Ok(valor.value), false;
      }
      pidio := true;
      if login.ErrorHttp? {
        return Err(MensajeHttp(login.status, login.texto)), true;
      }
      var token := login.accessToken;
      if token.None? || token.value == "" {
        return Err(SIN_TOKEN), true;
      }
      var expiresIn := if login.expiresIn.Some? then login.expiresIn.value else EXPIRA_POR_DEFECTO;
      valor := token;
      exp := ahora + (if expiresIn - MARGEN > MINIMO then expiresIn - MARGEN else MINIMO) as real;
      r := Ok(token.value);
    }
  }
}

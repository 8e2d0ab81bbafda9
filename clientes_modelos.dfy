/**
 * The customer-code models of `clientes/models.py`: the stored sequence of
 * customer codes, and the temporary codes, at most one created per day, each
 * valid for 10 hours.
 *
 * Moments are seconds since the epoch (UTC); the current moment and the
 * random choices of a new code are parameters.
 */
module ClientesModelos {
  import opened Resultados

  // ------------------------------------------------------------ SecuenciaCodCliente

  /** The stored row `SecuenciaCodCliente`: the last code handed out and the highest allowed. */
  datatype Secuencia = Secuencia(ultimoCodigo: int, rangoMaximo: int)

  /** The field defaults: the code before the first one, and the end of the range. */
  const ULTIMO_CODIGO_INICIAL: int := 51500001
  const RANGO_MAXIMO_INICIAL: int := 545000000

  function SecuenciaInicial(): (s: Secuencia)
    ensures s.ultimoCodigo < s.rangoMaximo
  {
    Secuencia(ULTIMO_CODIGO_INICIAL, RANGO_MAXIMO_INICIAL)
  }

  // ------------------------------------------------------------ CodigoTemporal

  /** Ten hours, the life of a temporary code. */
  const VIGENCIA: int := 10 * 3600

  const DIA: int := 86400

  predicate EsDigito(c: char)
  {
    '0' <= c <= '9'
  }

  predicate EsMayuscula(c: char)
  {
    'A' <= c <= 'Z'
  }

  /** Four decimal digits followed by three uppercase ASCII letters. */
  predicate FormatoCodigo(s: string)
  {
    |s| == 7 && (forall i :: 0 <= i < 4 ==> EsDigito(s[i])) && (forall i :: 4 <= i < 7 ==> EsMayuscula(s[i]))
  }

  /**
   * `generar_codigo_alfanumerico`: the positions drawn by `random.choice` in
   * `string.digits` and in `string.ascii_uppercase` are the parameters.
   */
  function GenerarCodigoAlfanumerico(numeros: seq<nat>, letras: seq<nat>): (s: string)
    requires |numeros| == 4 && forall i :: 0 <= i < 4 ==> numeros[i] < 10
    requires |letras| == 3 && forall i :: 0 <= i < 3 ==> letras[i] < 26
    ensures FormatoCodigo(s)
    ensures forall i :: 0 <= i < 4 ==> s[i] as int - '0' as int == numeros[i]
    ensures forall i :: 0 <= i < 3 ==> s[4 + i] as int - 'A' as int == letras[i]
  {
    seq(4, i requires 0 <= i < 4 => Digito(numeros[i])) + seq(3, i requires 0 <= i < 3 => Letra(letras[i]))
  }

  /** `string.digits[d]`. */
  function Digito(d: nat): (c: char)
    requires d < 10
    ensures EsDigito(c) && c as int - '0' as int == d
  {
    ('0' as int + d) as char
  }

  /** `string.ascii_uppercase[k]`. */
  function Letra(k: nat): (c: char)
    requires k < 26
    ensures EsMayuscula(c) && c as int - 'A' as int == k
  {
    ('A' as int + k) as char
  }

  /** A stored temporary code. */
  datatype FilaCodigo = FilaCodigo(pk: nat, codigo: Option<string>, fechaCreacion: int, fechaVencimiento: Option<int>)

  /** `es_valido`: the expiry is set and not reached. */
  predicate EsValido(vencimiento: Option<int>, ahora: int)
  {
    vencimiento.Some? && ahora < vencimiento.value
  }

  /** The start of the day (UTC) of a moment. */
  function InicioDia(ahora: int): (d: int)
    ensures d <= ahora < d + DIA
  {
    ahora - ahora % DIA
  }

  /** `clean`: whether some stored code was created during the current day. */
  predicate CreadoHoy(tabla: seq<FilaCodigo>, ahora: int)
  {
    exists i :: 0 <= i < |tabla| && InicioDia(ahora) <= tabla[i].fechaCreacion < InicioDia(ahora) + DIA
  }

  /** The codes left after deleting the expired ones and expiring the active ones, in order. */
  function Invalidadas(tabla: seq<FilaCodigo>, ahora: int): (r: seq<FilaCodigo>)
    ensures |r| <= |tabla|
  {
    if tabla == [] then []
    else
      var f := tabla[|tabla| - 1];
      var previas := Invalidadas(tabla[..|tabla| - 1], ahora);
      if f.fechaVencimiento.Some? && f.fechaVencimiento.value <= ahora then previas
      else if f.fechaVencimiento.Some? then previas + [f.(fechaVencimiento := Some(ahora))]
      else previas + [f]
  }

  /** The first primary key not in use. */
  function NuevaClave(tabla: seq<FilaCodigo>): (k: nat)
    ensures forall i :: 0 <= i < |tabla| ==> tabla[i].pk < k
  {
    if tabla == [] then 1
    else
      var k := NuevaClave(tabla[..|tabla| - 1]);
      if tabla[|tabla| - 1].pk < k then k else tabla[|tabla| - 1].pk + 1
  }

  /** The row of a primary key, replaced. */
  function Reemplazar(tabla: seq<FilaCodigo>, f: FilaCodigo): (r: seq<FilaCodigo>)
    ensures |r| == |tabla|
  {
    seq(|tabla|, i requires 0 <= i < |tabla| => if tabla[i].pk == f.pk then f else tabla[i])
  }

  /**
   * `save`: `clean` first; for an object without a key, the expired codes are
   * deleted and the active ones expired; a missing code is generated with its
   * dates; then the row is inserted (a new key) or rewritten.
   */
  function Guardar(tabla: seq<FilaCodigo>, pk: Option<nat>, codigo: Option<string>, creacion: int, vencimiento: Option<int>,
                   ahora: int, nuevo: string): (r: Result<(FilaCodigo, seq<FilaCodigo>)>)
  {
    if CreadoHoy(tabla, ahora) then Err("Solo se puede crear un código por día.")
    else
      var restantes := if pk.None? then Invalidadas(tabla, ahora) else tabla;
      var f := if codigo.None? || codigo.value == "" then FilaCodigo(0, Some(nuevo), ahora, Some(ahora + VIGENCIA))
               else FilaCodigo(0, codigo, if pk.None? then ahora else creacion, vencimiento);
      if pk.None? then
        var g := f.(pk := NuevaClave(restantes));
        Ok((g, restantes + [g]))
      else
        var g := f.(pk := pk.value);
        Ok((g, Reemplazar(restantes, g)))
  }

  /** An object of `CodigoTemporal`, saved into the table of codes. */
  class CodigoTemporal {
    var pk: Option<nat>
    var codigo: Option<string>
    var fechaCreacion: int
    var fechaVencimiento: Option<int>

    /** A new, unsaved object. */
    constructor ()
      ensures pk == None && codigo == None && fechaVencimiento == None
    {
      pk := None;
      codigo := None;
      fechaCreacion := 0;
      fechaVencimiento := None;
    }

    /** `es_valido` at moment `ahora`. */
    predicate Valido(ahora: int)
      reads this
    {
      EsValido(fechaVencimiento, ahora)
    }

    /** `save`, with the random positions of a code generated on the way. */
    method Save(tabla: TablaCodigos, ahora: int, numeros: seq<nat>, letras: seq<nat>) returns (r: Result<()>)
      requires |numeros| == 4 && forall i :: 0 <= i < 4 ==> numeros[i] < 10
      requires |letras| == 3 && forall i :: 0 <= i < 3 ==> letras[i] < 26
      modifies this, tabla
      ensures var g := Guardar(old(tabla.filas), old(pk), old(codigo), old(fechaCreacion), old(fechaVencimiento),
                               ahora, GenerarCodigoAlfanumerico(numeros, letras));
              (g.Err? ==> r.Err? && r.error == g.error && tabla.filas == old(tabla.filas)
                          && pk == old(pk) && codigo == old(codigo)
                          && fechaCreacion == old(fechaCreacion) && fechaVencimiento == old(fechaVencimiento))
              && (g.Ok? ==> r.Ok? && tabla.filas == g.value.1 && pk == Some(g.value.0.pk) && codigo == g.value.0.codigo
                            && fechaCreacion == g.value.0.fechaCreacion && fechaVencimiento == g.value.0.fechaVencimiento)
    {
      var hoy := tabla.CreadoHoyEnTabla(ahora);
      if hoy {
        return Err("Solo se puede crear un código por día.");
      }
      if pk.None? {
        tabla.Invalidar(ahora);
      }
      if codigo.None? || codigo.value == "" {
        codigo := Some(GenerarCodigoAlfanumerico(numeros, letras));
        fechaCreacion := ahora;
        fechaVencimiento := Some(ahora + VIGENCIA);
      }
      if pk.None? {
        fechaCreacion := ahora;
        var k := tabla.Insertar(codigo, fechaCreacion, fechaVencimiento);
        pk := Some(k);
      } else {
        tabla.Actualizar(FilaCodigo(pk.value, codigo, fechaCreacion, fechaVencimiento));
      }
      r := Ok(());
    }
  }

  /** The table `CodigoTemporal`. */
  class TablaCodigos {
    var filas: seq<FilaCodigo>

    constructor (filas0: seq<FilaCodigo>)
      ensures filas == filas0
    {
      filas := filas0;
    }

    /** The query of `clean`. */
    method CreadoHoyEnTabla(ahora: int) returns (b: bool)
      ensures b == CreadoHoy(filas, ahora)
    {
      b := false;
      var i := 0;
      while i < |filas|
        invariant 0 <= i <= |filas|
        invariant b <==> exists j :: 0 <= j < i && InicioDia(ahora) <= filas[j].fechaCreacion < InicioDia(ahora) + DIA
      {
        if InicioDia(ahora) <= filas[i].fechaCreacion < InicioDia(ahora) + DIA {
          b := true;
        }
        i := i + 1;
      }
    }

    /** The two bulk statements of `save`: the expired codes are deleted, the active ones expire now. */
    method Invalidar(ahora: int)
      modifies this
      ensures filas == Invalidadas(old(filas), ahora)
    {
      var r: seq<FilaCodigo> := [];
      var i := 0;
      while i < |filas|
        invariant 0 <= i <= |filas| && r == Invalidadas(filas[..i], ahora)
      {
        assert filas[..i + 1][..i] == filas[..i];
        var f := filas[i];
        if f.fechaVencimiento.Some? && f.fechaVencimiento.value <= ahora {
        } else if f.fechaVencimiento.Some? {
          r := r + [f.(fechaVencimiento := Some(ahora))];
        } else {
          r := r + [f];
        }
        i := i + 1;
      }
      assert filas[..|filas|] == filas;
      filas := r;
    }

    /** The insert of a new object: it takes the first unused key. */
    method Insertar(codigo: Option<string>, creacion: int, vencimiento: Option<int>) returns (k: nat)
      modifies this
      ensures k == NuevaClave(old(filas)) && filas == old(filas) + [FilaCodigo(k, codigo, creacion, vencimiento)]
    {
      k := NuevaClave(filas);
      filas := filas + [FilaCodigo(k, codigo, creacion, vencimiento)];
    }

    /** The update of a saved object. */
    method Actualizar(f: FilaCodigo)
      modifies this
      ensures filas == Reemplazar(old(filas), f)
    {
      filas := Reemplazar(filas, f);
    }
  }

  // ------------------------------------------------------------ what saving guarantees

  /** `clean` refuses exactly when a code was created today, the object's own stored row included. */
  lemma GuardarRechaza(tabla: seq<FilaCodigo>, pk: Option<nat>, codigo: Option<string>, creacion: int, vencimiento: Option<int>,
                       ahora: int, nuevo: string)
    ensures Guardar(tabla, pk, codigo, creacion, vencimiento, ahora, nuevo).Err? <==> CreadoHoy(tabla, ahora)
  {
  }

  /** Re-saving a code created today is refused, although it is the same code. */
  lemma ReguardarHoy(tabla: seq<FilaCodigo>, i: nat, ahora: int, nuevo: string)
    requires i < |tabla| && InicioDia(ahora) <= tabla[i].fechaCreacion <= ahora
    ensures Guardar(tabla, Some(tabla[i].pk), tabla[i].codigo, tabla[i].fechaCreacion, tabla[i].fechaVencimiento, ahora, nuevo).Err?
  {
  }

  /** After the bulk statements no earlier code is valid from now on; codes without an expiry stay as they are. */
  lemma {:induction false} InvalidadasNoValidas(tabla: seq<FilaCodigo>, ahora: int, t: int)
    requires ahora <= t
    ensures forall i :: 0 <= i < |Invalidadas(tabla, ahora)| ==> !EsValido(Invalidadas(tabla, ahora)[i].fechaVencimiento, t)
    ensures forall i :: 0 <= i < |Invalidadas(tabla, ahora)| ==>
              Invalidadas(tabla, ahora)[i].fechaVencimiento.None? || Invalidadas(tabla, ahora)[i].fechaVencimiento == Some(ahora)
  {
    if tabla != [] {
      InvalidadasNoValidas(tabla[..|tabla| - 1], ahora, t);
    }
  }

  predicate Vencida(f: FilaCodigo, ahora: int)
  {
    f.fechaVencimiento.Some? && f.fechaVencimiento.value <= ahora
  }

  predicate ConClave(tabla: seq<FilaCodigo>, k: nat)
  {
    exists i :: 0 <= i < |tabla| && tabla[i].pk == k
  }

  predicate ConClaveVigente(tabla: seq<FilaCodigo>, k: nat, ahora: int)
  {
    exists i :: 0 <= i < |tabla| && tabla[i].pk == k && !Vencida(tabla[i], ahora)
  }

  lemma ConClaveUltima(previas: seq<FilaCodigo>, extra: seq<FilaCodigo>, k: nat)
    requires |extra| <= 1
    ensures ConClave(previas + extra, k) <==> ConClave(previas, k) || (extra != [] && extra[0].pk == k)
  {
    if ConClave(previas + extra, k) {
      var i :| 0 <= i < |previas + extra| && (previas + extra)[i].pk == k;
      if i < |previas| {
        assert previas[i].pk == k;
      }
    }
    if ConClave(previas, k) {
      var i :| 0 <= i < |previas| && previas[i].pk == k;
      assert (previas + extra)[i].pk == k;
    }
    if extra != [] && extra[0].pk == k {
      assert (previas + extra)[|previas|].pk == k;
    }
  }

  lemma ConClaveVigenteUltima(tabla: seq<FilaCodigo>, k: nat, ahora: int)
    requires tabla != []
    ensures ConClaveVigente(tabla, k, ahora)
            <==> ConClaveVigente(tabla[..|tabla| - 1], k, ahora) || (tabla[|tabla| - 1].pk == k && !Vencida(tabla[|tabla| - 1], ahora))
  {
    var n := |tabla| - 1;
    if ConClaveVigente(tabla, k, ahora) {
      var i :| 0 <= i < |tabla| && tabla[i].pk == k && !Vencida(tabla[i], ahora);
      if i < n {
        assert tabla[..n][i] == tabla[i];
      }
    }
    if ConClaveVigente(tabla[..n], k, ahora) {
      var i :| 0 <= i < n && tabla[..n][i].pk == k && !Vencida(tabla[..n][i], ahora);
      assert tabla[i] == tabla[..n][i];
    }
  }

  /** The bulk statements delete exactly the expired codes and keep the others. */
  lemma {:induction false} InvalidadasConserva(tabla: seq<FilaCodigo>, ahora: int, k: nat)
    ensures ConClave(Invalidadas(tabla, ahora), k) <==> ConClaveVigente(tabla, k, ahora)
  {
    if tabla != [] {
      var n := |tabla| - 1;
      var f := tabla[n];
      InvalidadasConserva(tabla[..n], ahora, k);
      ConClaveVigenteUltima(tabla, k, ahora);
      var extra := if Vencida(f, ahora) then [] else if f.fechaVencimiento.Some? then [f.(fechaVencimiento := Some(ahora))] else [f];
      ConClaveUltima(Invalidadas(tabla[..n], ahora), extra, k);
      assert Invalidadas(tabla, ahora) == Invalidadas(tabla[..n], ahora) + extra;
    }
  }

  /**
   * Saving a new code: it gets a fresh key, a generated code valid for exactly ten
   * hours from now, and every other stored code is invalid from now on.
   */
  lemma GuardarNuevo(tabla: seq<FilaCodigo>, codigo: Option<string>, creacion: int, vencimiento: Option<int>,
                     ahora: int, nuevo: string, t: int)
    requires !CreadoHoy(tabla, ahora) && (codigo.None? || codigo.value == "") && ahora <= t
    ensures var g := Guardar(tabla, None, codigo, creacion, vencimiento, ahora, nuevo);
            g.Ok? && g.value.0.codigo == Some(nuevo) && g.value.0.fechaCreacion == ahora
            && (EsValido(g.value.0.fechaVencimiento, t) <==> t < ahora + VIGENCIA)
            && g.value.1 == Invalidadas(tabla, ahora) + [g.value.0]
            && (forall i :: 0 <= i < |g.value.1| - 1 ==> !EsValido(g.value.1[i].fechaVencimiento, t))
            && (forall i :: 0 <= i < |g.value.1| - 1 ==> g.value.1[i].pk != g.value.0.pk)
  {
    InvalidadasNoValidas(tabla, ahora, t);
  }

  /** A saved object's own row is the one rewritten; the stored rows stay where they are. */
  lemma GuardarExistente(tabla: seq<FilaCodigo>, pk: nat, codigo: string, creacion: int, vencimiento: Option<int>,
                         ahora: int, nuevo: string)
    requires !CreadoHoy(tabla, ahora) && codigo != ""
    ensures var g := Guardar(tabla, Some(pk), Some(codigo), creacion, vencimiento, ahora, nuevo);
            g.Ok? && g.value.0 == FilaCodigo(pk, Some(codigo), creacion, vencimiento)
            && |g.value.1| == |tabla|
            && forall i :: 0 <= i < |tabla| ==> g.value.1[i] == (if tabla[i].pk == pk then g.value.0 else tabla[i])
  {
  }
}

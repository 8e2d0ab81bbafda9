/**
 * The in-list editing of suggestion lines: the POST handler at the top of
 * `changelist_view` of `SugeridoLineaAdmin`. Two copies exist, and they
 * differ in a few rules and in how a line is saved, so the model is
 * parameterised by `Version`:
 *   - `Anterior`: the copy in `Compras/admin.py`;
 *   - `Paquete`: the copy in `Compras/admin/sugeridos.py`.
 *
 * The table is a map from primary key to line, and `orden` is the order in
 * which the query returns the selected lines (the query has no ordering of
 * its own). The lines are read once, before the loop; every save writes the
 * in-memory copy back, while the discounts propagated to the other lines of
 * the same article read and write the table as it is at that moment.
 */
module FormularioLineas {
  import opened Resultados
  import opened Decimales
  import opened Textos
  import opened Lineas

  /** Which of the two copies of the handler. */
  datatype Version = Anterior | Paquete

  /** `request.POST`, one value per key (the last one sent). */
  type Post = map<string, string>

  function Get(post: Post, k: string): Option<string>
  {
    if k in post then Some(post[k]) else None
  }

  // ------------------------------------------------------------ Decimal text

  function Reemplazar(s: string, a: char, b: char): string
  {
    seq(|s|, i requires 0 <= i < |s| => if s[i] == a then b else s[i])
  }

  function ValorOCero(s: string): nat
    requires SoloDigitos(s)
  {
    if s == [] then 0 else ValorDigitos(s)
  }

  /**
   * `Decimal(t)` on plain decimal text: surrounding whitespace, an optional
   * sign, digits with at most one point and at least one digit. Any other
   * text gives `None` (the handlers catch the exception).
   */
  function ParseDecimal(s: string): (r: Option<real>)
  {
    LeerDecimal(Strip(s))
  }

  /** `Decimal` on text already stripped. */
  function LeerDecimal(t: string): (r: Option<real>)
  {
    var negativo := |t| >= 1 && t[0] == '-';
    var cuerpo := if |t| >= 1 && (t[0] == '-' || t[0] == '+') then t[1..] else t;
    match LeerCuerpo(cuerpo)
    case None => None
    case Some(v) => Some(if negativo then -v else v)
  }

  /** The unsigned body: digits with at most one point and at least one digit. */
  function LeerCuerpo(cuerpo: string): Option<real>
  {
    var partes := Split(cuerpo, '.');
    if |partes| > 2 || !SoloDigitos(partes[0]) || (|partes| == 2 && !SoloDigitos(partes[1])) then None
    else
      var frac := if |partes| == 2 then partes[1] else "";
      if partes[0] == [] && frac == [] then None
      else Some(ValorDecimal(partes[0], frac))
  }

  /** The value of the digits before and after the point. */
  function ValorDecimal(ent: string, frac: string): real
    requires SoloDigitos(ent) && SoloDigitos(frac)
  {
    ValorOCero(ent) as real + ValorOCero(frac) as real / Pot10(|frac|) as real
  }

  /** `_dec`: `None`, `''` and `'None'` are absent; otherwise the comma is read as the decimal point. */
  function Dec(v: Option<string>): (r: Option<real>)
    ensures v.None? ==> r.None?
  {
    if v.None? || v.value == "" || v.value == "None" then None
    else ParseDecimal(Reemplazar(v.value, ',', '.'))
  }

  /**
   * Text with no point is read by `Decimal` exactly as by `int`; so the
   * stored value of a whole number is read back as that number.
   */
  lemma {:induction false} ParseDecimalEntero(s: string)
    requires ParseInt(s).Some?
    ensures ParseDecimal(s) == Some(ParseInt(s).value as real)
  {
    var t := Strip(s);
    if t[0] == '-' {
      EnteroNegativo(t);
    } else if t[0] == '+' {
      EnteroMas(t);
    } else {
      EnteroSinSigno(t);
    }
  }

  lemma {:induction false} EnteroNegativo(t: string)
    requires LeerEntero(t).Some? && t[0] == '-'
    ensures LeerDecimal(t) == Some(LeerEntero(t).value as real)
  {
    DigitosSinPunto(t[1..]);
  }

  lemma {:induction false} EnteroMas(t: string)
    requires LeerEntero(t).Some? && t[0] == '+'
    ensures LeerDecimal(t) == Some(LeerEntero(t).value as real)
  {
    DigitosSinPunto(t[1..]);
  }

  lemma {:induction false} EnteroSinSigno(t: string)
    requires LeerEntero(t).Some? && t[0] != '-' && t[0] != '+'
    ensures LeerDecimal(t) == Some(LeerEntero(t).value as real)
  {
    DigitosSinPunto(t);
  }

  /** A run of digits holds no point, so `Decimal` reads it as `int` does. */
  lemma DigitosSinPunto(c: string)
    requires |c| >= 1 && SoloDigitos(c)
    ensures LeerCuerpo(c) == Some(ValorDigitos(c) as real)
  {
    SinPunto(c);
    SplitSinSeparador(c, '.');
    LeerCuerpoSinPunto(c);
    ValorSinFraccion(c);
  }

  /** With no digits after the point the value is that of the whole digits. */
  lemma ValorSinFraccion(e: string)
    requires |e| >= 1 && SoloDigitos(e)
    ensures ValorDecimal(e, "") == ValorDigitos(e) as real
  {
    assert Pot10(0) == 1;
  }

  /** A body without a point is read as its digits. */
  lemma LeerCuerpoSinPunto(cuerpo: string)
    requires |cuerpo| >= 1 && SoloDigitos(cuerpo) && Split(cuerpo, '.') == [cuerpo]
    ensures LeerCuerpo(cuerpo) == Some(ValorDecimal(cuerpo, ""))
  {
  }

  /** `Decimal("a.f")` is `a + f / 10^|f|`. */
  lemma {:induction false} ParseDecimalFraccion(a: nat, f: string)
    requires |f| >= 1 && SoloDigitos(f)
    ensures ParseDecimal(NatATexto(a) + "." + f) == Some(a as real + ValorDigitos(f) as real / Pot10(|f|) as real)
  {
    var e := NatATexto(a);
    var s := e + "." + f;
    assert Split(s, '.') == [e, f] by {
      SinPunto(e);
      SinPunto(f);
      SplitConcat(e, '.', f);
      SplitSinSeparador(f, '.');
    }
    assert Strip(s) == s && s[0] != '-' && s[0] != '+' by {
      CuerpoSinSigno(e, f);
    }
    calc {
      ParseDecimal(s);
      { ParseDecimalPartes(s, e, f); }
      Some(ValorDecimal(e, f));
      { ValorConFraccion(a, f); }
      Some(a as real + ValorDigitos(f) as real / Pot10(|f|) as real);
    }
  }

  lemma ValorConFraccion(a: nat, f: string)
    requires |f| >= 1 && SoloDigitos(f)
    ensures ValorDecimal(NatATexto(a), f) == a as real + ValorDigitos(f) as real / Pot10(|f|) as real
  {
    ValorNatATexto(a);
  }

  /** An unsigned body split by its one point into two runs of digits. */
  lemma {:induction false} ParseDecimalPartes(s: string, e: string, f: string)
    requires Strip(s) == s && |s| >= 1 && s[0] != '-' && s[0] != '+'
    requires Split(s, '.') == [e, f] && SoloDigitos(e) && SoloDigitos(f) && |f| >= 1
    ensures ParseDecimal(s) == Some(ValorDecimal(e, f))
  {
  }

  /** Text that starts with a digit and ends with one is its own stripped, unsigned body. */
  lemma {:induction false} CuerpoSinSigno(e: string, f: string)
    requires |e| >= 1 && |f| >= 1 && SoloDigitos(e) && SoloDigitos(f)
    ensures var s := e + "." + f;
            Strip(s) == s && s[0] != '-' && s[0] != '+'
  {
    var s := e + "." + f;
    assert s[0] == e[0] && s[|s| - 1] == f[|f| - 1];
    StripSinBordes(s);
  }

  /** The handler of `Compras/admin.py` parses the internal quantity without `_dec`'s filter: the result is the same. */
  lemma {:induction false} DecSinFiltro(s: string)
    ensures Dec(Some(s)) == ParseDecimal(Reemplazar(s, ',', '.'))
  {
    if s == "None" {
      var t := Reemplazar(s, ',', '.');
      assert t == s;
      StripSinBordes(s);
      assert Split(s, '.') == [s] by {
        SplitSinSeparador(s, '.');
      }
      assert !EsDigito(s[0]);
    }
  }

  // ------------------------------------------------------------ Line ids

  /** The text after the last `_` of a key. */
  function UltimoTramo(k: string): string
  {
    var p := Split(k, '_');
    p[|p| - 1]
  }

  /** `int(k.split('_')[-1])`, `None` where it raises. */
  function IdDeClave(k: string): Option<int>
  {
    ParseInt(UltimoTramo(k))
  }

  function Clave(prefijo: string, pid: int): string
  {
    prefijo + IntATexto(pid)
  }

  const PREFIJOS_ANTERIOR: seq<string> := [
    "linea_id_", "sugerido_interno_", "nuevo_sugerido_prov_", "descuento_prov_pct_",
    "descuento_prov_pct_2_", "descuento_prov_pct_3_", "continuidad_activo_",
    "nuevo_nombre_prov_", "observaciones_prov_"]

  /** The copy in `Compras/admin/sugeridos.py` also reads the class inputs. */
  const PREFIJOS_PAQUETE: seq<string> := PREFIJOS_ANTERIOR + ["clasificacion_"]

  function Prefijos(v: Version): seq<string>
  {
    if v == Anterior then PREFIJOS_ANTERIOR else PREFIJOS_PAQUETE
  }

  predicate Reconocida(k: string, prefijos: seq<string>)
  {
    exists i :: 0 <= i < |prefijos| && EmpiezaCon(k, prefijos[i])
  }

  /** The ids named by the keys of the POST that start with a known prefix and end in a number. */
  function IdsDelPost(post: Post, prefijos: seq<string>): set<int>
  {
    set k | k in post && Reconocida(k, prefijos) && IdDeClave(k).Some? :: IdDeClave(k).value
  }

  /** The key of one input names its line. */
  lemma {:induction false} IdDeSuClave(prefijo: string, pid: int)
    requires |prefijo| >= 1 && prefijo[|prefijo| - 1] == '_'
    ensures IdDeClave(Clave(prefijo, pid)) == Some(pid)
  {
    var x := prefijo[..|prefijo| - 1];
    var y := IntATexto(pid);
    assert Clave(prefijo, pid) == x + ['_'] + y by {
      assert prefijo == x + ['_'];
    }
    assert UltimoTramo(x + ['_'] + y) == y by {
      assert '_' !in y by {
        if pid < 0 {
          SinPunto(NatATexto(-pid));
        } else {
          SinPunto(y);
        }
      }
      SplitCola(x, '_', y);
      SplitSinSeparador(y, '_');
    }
    ParseIntATexto(pid);
  }

  /**
   * Any input sent for a line, under any of the prefixes, selects that line
   * (every prefix ends in an underscore: `PrefijosTerminan`).
   */
  lemma {:induction false} SeleccionadaPorSuClave(post: Post, prefijos: seq<string>, i: nat, pid: int)
    requires i < |prefijos| && |prefijos[i]| >= 1 && prefijos[i][|prefijos[i]| - 1] == '_'
    requires Clave(prefijos[i], pid) in post
    ensures pid in IdsDelPost(post, prefijos)
  {
    var p := prefijos[i];
    var k := Clave(p, pid);
    IdDeSuClave(p, pid);
    assert EmpiezaCon(k, p);
    assert Reconocida(k, prefijos);
    assert IdDeClave(k).value == pid;
  }

  /** Every prefix the handlers recognise ends in an underscore. */
  lemma PrefijosTerminan(v: Version, i: nat)
    requires i < |Prefijos(v)|
    ensures |Prefijos(v)[i]| >= 1 && Prefijos(v)[i][|Prefijos(v)[i]| - 1] == '_'
  {
  }

  /** Conversely, a selected id is named by some key of the POST. */
  lemma SeleccionTieneClave(post: Post, prefijos: seq<string>, pid: int)
    requires pid in IdsDelPost(post, prefijos)
    ensures exists k :: k in post && Reconocida(k, prefijos) && IdDeClave(k) == Some(pid)
  {
  }

  // ------------------------------------------------------------ Roles

  /** A `PerfilProveedor`: the supplier it speaks for. */
  datatype Perfil = Perfil(proveedor: Option<int>)

  /** What the handlers read of `request.user`: its group names and its supplier profile. */
  datatype Usuario = Usuario(grupos: set<string>, perfil: Option<Perfil>)

  const GRUPO_INTERNO := "perfil_interno"
  const GRUPO_PROVEEDOR := "perfil_proveedor"
  const GRUPO_CLASE_C := "clasificacion_c"

  predicate EsInterno(u: Usuario)
  {
    GRUPO_INTERNO in u.grupos
  }

  /**
   * `Compras/admin.py` calls a user with a supplier profile a supplier;
   * `Compras/admin/sugeridos.py` never calls an internal user one, and
   * otherwise accepts either the group or the profile.
   */
  predicate EsProveedor(v: Version, u: Usuario)
  {
    match v
    case Anterior => u.perfil.Some?
    case Paquete => !EsInterno(u) && (GRUPO_PROVEEDOR in u.grupos || u.perfil.Some?)
  }

  /** Whether a supplier may edit a line of a given supplier. */
  predicate ProveedorAdmitido(v: Version, u: Usuario, ln: SugeridoLinea)
  {
    match v
    case Anterior => u.perfil.Some? && u.perfil.value.proveedor == ln.proveedor
    case Paquete => u.perfil.None? || u.perfil.value.proveedor == ln.proveedor
  }

  // ------------------------------------------------------------ Locks

  /** `(x or '').strip().upper()`. */
  function Normalizado(x: Option<string>): string
  {
    Upper(Strip(x.GetOr("")))
  }

  function ClaseDe(ln: SugeridoLinea): string
  {
    Normalizado(ln.clasificacion)
  }

  /** The state of a line's lot, or `''` when it is unknown. */
  function EstadoLote(lotes: map<int, string>, ln: SugeridoLinea): string
  {
    if ln.lote in lotes then Normalizado(Some(lotes[ln.lote])) else ""
  }

  /** Class I, an ordered line or a confirmed or completed lot: the line is skipped. */
  predicate Bloqueada(ln: SugeridoLinea, estadoLote: string)
  {
    ClaseDe(ln) == "I" || Normalizado(ln.estadoLinea) == ORDENADA
    || estadoLote == CONFIRMADO || estadoLote == COMPLETADO
  }

  // ------------------------------------------------------------ Fields

  /** The editable fields of a line. */
  datatype Campo = NuevoSugerido | Dto1 | Dto2 | Dto3 | Continuidad | NuevoNombre | Observaciones | Interno | Clase

  /** The eight fields `Compras/admin.py` writes on every save. */
  const CAMPOS_ANTERIOR: set<Campo> := {NuevoSugerido, Dto1, Dto2, Dto3, Continuidad, NuevoNombre, Observaciones, Interno}

  const CAMPOS_PROVEEDOR: set<Campo> := {NuevoSugerido, Dto1, Dto2, Dto3, Continuidad, NuevoNombre, Observaciones}

  /** `d` with the fields `cs` taken from `o`. */
  function CopiarCampos(d: SugeridoLinea, o: SugeridoLinea, cs: set<Campo>): SugeridoLinea
  {
    d.(nuevoSugeridoProv := if NuevoSugerido in cs then o.nuevoSugeridoProv else d.nuevoSugeridoProv,
       descuento1 := if Dto1 in cs then o.descuento1 else d.descuento1,
       descuento2 := if Dto2 in cs then o.descuento2 else d.descuento2,
       descuento3 := if Dto3 in cs then o.descuento3 else d.descuento3,
       continuidadActivo := if Continuidad in cs then o.continuidadActivo else d.continuidadActivo,
       nuevoNombreProv := if NuevoNombre in cs then o.nuevoNombreProv else d.nuevoNombreProv,
       observacionesProv := if Observaciones in cs then o.observacionesProv else d.observacionesProv,
       sugeridoInterno := if Interno in cs then o.sugeridoInterno else d.sugeridoInterno,
       clasificacion := if Clase in cs then o.clasificacion else d.clasificacion)
  }

  /** `b` differs from `a` only in the fields `cs`. */
  predicate SoloDifiere(a: SugeridoLinea, b: SugeridoLinea, cs: set<Campo>)
  {
    CopiarCampos(a, b, cs) == b
  }

  /** A parsed value that is present and differs from the stored one. */
  predicate CambiaReal(actual: Option<real>, nuevo: Option<real>)
  {
    nuevo.Some? && nuevo != actual
  }

  predicate CambiaTexto(actual: Option<string>, nuevo: Option<string>)
  {
    nuevo.Some? && nuevo != actual
  }

  /** Python's `bool` of an optional text: present and non-empty. */
  predicate Verdadero(m: Option<string>)
  {
    m.Some? && m.value != ""
  }

  /** The in-memory line after the handler's assignments, and the fields it changed. */
  datatype Edicion = Edicion(linea: SugeridoLinea, campos: set<Campo>)

  /** The three discounts sent for a line, to be copied to its siblings. */
  datatype Dtos = Dtos(d1: Option<real>, d2: Option<real>, d3: Option<real>)

  datatype Decision = Omitida | Editada(edicion: Edicion, propagar: Option<Dtos>)

  /** The inputs sent for one line, as the handler reads and parses them. */
  datatype Entradas = Entradas(
    d1: Option<real>, d2: Option<real>, d3: Option<real>, nsug: Option<real>,
    cont: Option<string>, nom: Option<string>, obs: Option<string>,
    si: Option<real>, clas: Option<string>)

  /**
   * The inputs of line `pid`. `Compras/admin.py` parses the internal quantity
   * without `_dec`'s filter and has no class input.
   */
  function LeerEntradas(v: Version, post: Post, pid: int): (en: Entradas)
  {
    var msi := Get(post, Clave("sugerido_interno_", pid));
    Entradas(
      Dec(Get(post, Clave("descuento_prov_pct_", pid))),
      Dec(Get(post, Clave("descuento_prov_pct_2_", pid))),
      Dec(Get(post, Clave("descuento_prov_pct_3_", pid))),
      Dec(Get(post, Clave("nuevo_sugerido_prov_", pid))),
      Get(post, Clave("continuidad_activo_", pid)),
      Get(post, Clave("nuevo_nombre_prov_", pid)),
      Get(post, Clave("observaciones_prov_", pid)),
      if v == Anterior then (if msi.Some? then ParseDecimal(Reemplazar(msi.value, ',', '.')) else None) else Dec(msi),
      if v == Paquete then Get(post, Clave("clasificacion_", pid)) else None)
  }

  function Si(b: bool, c: Campo): set<Campo>
  {
    if b then {c} else {}
  }

  /** The value the continuity flag is compared with. */
  function ValorContinuidad(v: Version, en: Entradas): bool
  {
    if v == Anterior then Verdadero(en.cont) else en.cont.Some?
  }

  predicate CambiaContinuidad(v: Version, en: Entradas, ln: SugeridoLinea)
  {
    (v == Anterior || en.cont.Some?) && ValorContinuidad(v, en) != ln.continuidadActivo
  }

  predicate CambiaNuevoSugerido(v: Version, en: Entradas, ln: SugeridoLinea)
  {
    CambiaReal(ln.nuevoSugeridoProv, en.nsug) && (v == Anterior || ClaseDe(ln) == "A" || ClaseDe(ln) == "B")
  }

  function CamposProveedor(v: Version, en: Entradas, ln: SugeridoLinea): set<Campo>
  {
    Si(CambiaNuevoSugerido(v, en, ln), NuevoSugerido) + Si(CambiaReal(ln.descuento1, en.d1), Dto1)
    + Si(CambiaReal(ln.descuento2, en.d2), Dto2) + Si(CambiaReal(ln.descuento3, en.d3), Dto3)
    + Si(CambiaContinuidad(v, en, ln), Continuidad) + Si(CambiaTexto(ln.nuevoNombreProv, en.nom), NuevoNombre)
    + Si(CambiaTexto(ln.observacionesProv, en.obs), Observaciones)
  }

  /** The line with every supplier input that is present and new assigned. */
  function AsignarProveedor(v: Version, en: Entradas, ln: SugeridoLinea): SugeridoLinea
  {
    ln.(nuevoSugeridoProv := if CambiaNuevoSugerido(v, en, ln) then en.nsug else ln.nuevoSugeridoProv,
        descuento1 := if CambiaReal(ln.descuento1, en.d1) then en.d1 else ln.descuento1,
        descuento2 := if CambiaReal(ln.descuento2, en.d2) then en.d2 else ln.descuento2,
        descuento3 := if CambiaReal(ln.descuento3, en.d3) then en.d3 else ln.descuento3,
        continuidadActivo := if CambiaContinuidad(v, en, ln) then ValorContinuidad(v, en) else ln.continuidadActivo,
        nuevoNombreProv := if CambiaTexto(ln.nuevoNombreProv, en.nom) then en.nom else ln.nuevoNombreProv,
        observacionesProv := if CambiaTexto(ln.observacionesProv, en.obs) then en.obs else ln.observacionesProv)
  }

  /** A supplier's edit of one line; the discounts read are propagated when any is present. */
  function EdicionProveedor(v: Version, en: Entradas, ln: SugeridoLinea): (d: Decision)
  {
    Editada(Edicion(AsignarProveedor(v, en, ln), CamposProveedor(v, en, ln)),
            if en.d1.Some? || en.d2.Some? || en.d3.Some? then Some(Dtos(en.d1, en.d2, en.d3)) else None)
  }

  /**
   * Under `Compras/admin/sugeridos.py` the internal quantity of a class C
   * line needs the `clasificacion_c` group.
   */
  predicate InternoEditable(v: Version, u: Usuario, ln: SugeridoLinea)
  {
    v == Anterior || !(ClaseDe(ln) == "C" && GRUPO_CLASE_C !in u.grupos)
  }

  predicate CambiaInterno(v: Version, u: Usuario, en: Entradas, ln: SugeridoLinea)
  {
    InternoEditable(v, u, ln) && CambiaReal(ln.sugeridoInterno, en.si)
  }

  predicate CambiaClase(en: Entradas, ln: SugeridoLinea)
  {
    en.clas.Some? && Normalizado(en.clas) != ClaseDe(ln)
  }

  /** An internal user's edit: the internal quantity and the class, stored stripped and upper-cased. */
  function EdicionInterna(v: Version, u: Usuario, en: Entradas, ln: SugeridoLinea): (e: Edicion)
  {
    Edicion(ln.(sugeridoInterno := if CambiaInterno(v, u, en, ln) then en.si else ln.sugeridoInterno,
                clasificacion := if CambiaClase(en, ln) then Some(Normalizado(en.clas)) else ln.clasificacion),
            Si(CambiaInterno(v, u, en, ln), Interno) + Si(CambiaClase(en, ln), Clase))
  }

  /** What the handler does with one selected line. */
  function EditarLinea(v: Version, u: Usuario, post: Post, lotes: map<int, string>, ln: SugeridoLinea): (d: Decision)
  {
    if EsProveedor(v, u) then
      if !ProveedorAdmitido(v, u, ln) || Bloqueada(ln, EstadoLote(lotes, ln)) then Omitida
      else EdicionProveedor(v, LeerEntradas(v, post, ln.id), ln)
    else if v == Paquete && !EsInterno(u) then Omitida
    else if Bloqueada(ln, EstadoLote(lotes, ln)) then Omitida
    else Editada(EdicionInterna(v, u, LeerEntradas(v, post, ln.id), ln), None)
  }

  // ------------------------------------------------------------ Properties of one line

  /** A locked line is skipped by both copies and for every role. */
  lemma BloqueadaOmitida(v: Version, u: Usuario, post: Post, lotes: map<int, string>, ln: SugeridoLinea)
    requires Bloqueada(ln, EstadoLote(lotes, ln))
    ensures EditarLinea(v, u, post, lotes, ln) == Omitida
  {
  }

  /**
   * Which users get as far as editing a line: a supplier only for a line it
   * is admitted to, and under `Compras/admin/sugeridos.py` nobody who is
   * neither supplier nor internal.
   */
  lemma QuienEdita(v: Version, u: Usuario, post: Post, lotes: map<int, string>, ln: SugeridoLinea)
    ensures EditarLinea(v, u, post, lotes, ln).Editada? <==>
              !Bloqueada(ln, EstadoLote(lotes, ln))
              && (if EsProveedor(v, u) then ProveedorAdmitido(v, u, ln) else v == Anterior || EsInterno(u))
  {
  }

  lemma RolesExclusivos(u: Usuario)
    ensures EsInterno(u) ==> !EsProveedor(Paquete, u)
    ensures !EsInterno(u) ==> (EsProveedor(Paquete, u) <==> GRUPO_PROVEEDOR in u.grupos || u.perfil.Some?)
  {
  }

  /** The supplier's assignments change exactly the fields listed, all of them supplier fields. */
  lemma ProveedorSoloSusCampos(v: Version, en: Entradas, ln: SugeridoLinea)
    ensures SoloDifiere(ln, AsignarProveedor(v, en, ln), CamposProveedor(v, en, ln))
    ensures CamposProveedor(v, en, ln) <= CAMPOS_PROVEEDOR
  {
    SieteCampos(CambiaNuevoSugerido(v, en, ln), CambiaReal(ln.descuento1, en.d1), CambiaReal(ln.descuento2, en.d2),
                CambiaReal(ln.descuento3, en.d3), CambiaContinuidad(v, en, ln),
                CambiaTexto(ln.nuevoNombreProv, en.nom), CambiaTexto(ln.observacionesProv, en.obs));
    SieteCamposProveedor(CambiaNuevoSugerido(v, en, ln), CambiaReal(ln.descuento1, en.d1), CambiaReal(ln.descuento2, en.d2),
                         CambiaReal(ln.descuento3, en.d3), CambiaContinuidad(v, en, ln),
                         CambiaTexto(ln.nuevoNombreProv, en.nom), CambiaTexto(ln.observacionesProv, en.obs));
  }

  /** The fields a supplier's edit lists: each one exactly when its condition holds, none of the internal ones. */
  lemma SieteCampos(b1: bool, b2: bool, b3: bool, b4: bool, b5: bool, b6: bool, b7: bool)
    ensures var cs := Si(b1, NuevoSugerido) + Si(b2, Dto1) + Si(b3, Dto2) + Si(b4, Dto3)
                      + Si(b5, Continuidad) + Si(b6, NuevoNombre) + Si(b7, Observaciones);
            (NuevoSugerido in cs <==> b1) && (Dto1 in cs <==> b2) && (Dto2 in cs <==> b3) && (Dto3 in cs <==> b4)
            && (Continuidad in cs <==> b5) && (NuevoNombre in cs <==> b6) && (Observaciones in cs <==> b7)
  {
    var c1 := Si(b1, NuevoSugerido);
    var c2 := c1 + Si(b2, Dto1);
    SiUnion(c1, b2, Dto1);
    var c3 := c2 + Si(b3, Dto2);
    SiUnion(c2, b3, Dto2);
    var c4 := c3 + Si(b4, Dto3);
    SiUnion(c3, b4, Dto3);
    var c5 := c4 + Si(b5, Continuidad);
    SiUnion(c4, b5, Continuidad);
    var c6 := c5 + Si(b6, NuevoNombre);
    SiUnion(c5, b6, NuevoNombre);
    SiUnion(c6, b7, Observaciones);
  }

  /** Whatever the conditions, only supplier fields are listed. */
  lemma SieteCamposProveedor(b1: bool, b2: bool, b3: bool, b4: bool, b5: bool, b6: bool, b7: bool)
    ensures Si(b1, NuevoSugerido) + Si(b2, Dto1) + Si(b3, Dto2) + Si(b4, Dto3)
            + Si(b5, Continuidad) + Si(b6, NuevoNombre) + Si(b7, Observaciones) <= CAMPOS_PROVEEDOR
  {
  }

  lemma SiUnion(cs: set<Campo>, b: bool, c: Campo)
    ensures forall x :: x in cs + Si(b, c) <==> x in cs || (b && x == c)
  {
  }

  lemma InternoSoloSusCampos(v: Version, u: Usuario, en: Entradas, ln: SugeridoLinea)
    ensures SoloDifiere(ln, EdicionInterna(v, u, en, ln).linea, EdicionInterna(v, u, en, ln).campos)
    ensures EdicionInterna(v, u, en, ln).campos <= {Interno, Clase}
    ensures en.clas.None? ==> Clase !in EdicionInterna(v, u, en, ln).campos
  {
    var ci := CambiaInterno(v, u, en, ln);
    var cc := CambiaClase(en, ln);
    IncluyeSi(ci, Interno, cc, Clase);
    assert SoloDifiere(ln, EdicionInterna(v, u, en, ln).linea, EdicionInterna(v, u, en, ln).campos) by {
      DosCampos(ln, ci, en.si, cc, Some(Normalizado(en.clas)));
    }
  }

  /** Assigning the internal quantity and the class changes those two fields and no other. */
  lemma DosCampos(ln: SugeridoLinea, ci: bool, si: Option<real>, cc: bool, cl: Option<string>)
    ensures SoloDifiere(ln, ln.(sugeridoInterno := if ci then si else ln.sugeridoInterno,
                                 clasificacion := if cc then cl else ln.clasificacion),
                        Si(ci, Interno) + Si(cc, Clase))
  {
    IncluyeSi(ci, Interno, cc, Clase);
  }

  /** The union of two optional singletons of different fields. */
  lemma IncluyeSi(b: bool, c: Campo, b2: bool, c2: Campo)
    requires c != c2
    ensures c in Si(b, c) + Si(b2, c2) <==> b
    ensures c2 in Si(b, c) + Si(b2, c2) <==> b2
    ensures Si(b, c) + Si(b2, c2) <= {c, c2}
  {
  }

  /**
   * The new line differs from the stored one only in the fields listed as
   * changed, and each role changes only its own fields: a supplier its
   * answer, an internal user the internal quantity and the class. Only a
   * supplier's edit propagates discounts.
   */
  lemma CamposPorRol(v: Version, u: Usuario, post: Post, lotes: map<int, string>, ln: SugeridoLinea)
    requires EditarLinea(v, u, post, lotes, ln).Editada?
    ensures var d := EditarLinea(v, u, post, lotes, ln);
            SoloDifiere(ln, d.edicion.linea, d.edicion.campos)
            && (EsProveedor(v, u) ==> d.edicion.campos <= CAMPOS_PROVEEDOR)
            && (!EsProveedor(v, u) ==> d.edicion.campos <= {Interno, Clase} && d.propagar.None?)
            && (v == Anterior ==> Clase !in d.edicion.campos)
  {
    var en := LeerEntradas(v, post, ln.id);
    if EsProveedor(v, u) {
      ProveedorSoloSusCampos(v, en, ln);
    } else {
      InternoSoloSusCampos(v, u, en, ln);
    }
  }

  /** A field the supplier lists as changed is one whose input is present and new. */
  lemma CambiosProveedorReales(v: Version, en: Entradas, ln: SugeridoLinea)
    ensures var cs := CamposProveedor(v, en, ln);
            (NuevoSugerido in cs <==> CambiaNuevoSugerido(v, en, ln))
            && (Dto1 in cs <==> CambiaReal(ln.descuento1, en.d1))
            && (Dto2 in cs <==> CambiaReal(ln.descuento2, en.d2))
            && (Dto3 in cs <==> CambiaReal(ln.descuento3, en.d3))
            && (Continuidad in cs <==> CambiaContinuidad(v, en, ln))
            && (NuevoNombre in cs <==> CambiaTexto(ln.nuevoNombreProv, en.nom))
            && (Observaciones in cs <==> CambiaTexto(ln.observacionesProv, en.obs))
  {
    EnCamposProveedor(v, en, ln, NuevoSugerido);
    EnCamposProveedor(v, en, ln, Dto1);
    EnCamposProveedor(v, en, ln, Dto2);
    EnCamposProveedor(v, en, ln, Dto3);
    EnCamposProveedor(v, en, ln, Continuidad);
    EnCamposProveedor(v, en, ln, NuevoNombre);
    EnCamposProveedor(v, en, ln, Observaciones);
  }

  /** Whether the supplier's input for field `x` is present and new. */
  predicate CambiaCampo(v: Version, en: Entradas, ln: SugeridoLinea, x: Campo)
  {
    match x
    case NuevoSugerido => CambiaNuevoSugerido(v, en, ln)
    case Dto1 => CambiaReal(ln.descuento1, en.d1)
    case Dto2 => CambiaReal(ln.descuento2, en.d2)
    case Dto3 => CambiaReal(ln.descuento3, en.d3)
    case Continuidad => CambiaContinuidad(v, en, ln)
    case NuevoNombre => CambiaTexto(ln.nuevoNombreProv, en.nom)
    case Observaciones => CambiaTexto(ln.observacionesProv, en.obs)
    case _ => false
  }

  lemma EnCamposProveedor(v: Version, en: Entradas, ln: SugeridoLinea, x: Campo)
    ensures x in CamposProveedor(v, en, ln) <==> CambiaCampo(v, en, ln, x)
  {
    EnSi(CambiaNuevoSugerido(v, en, ln), NuevoSugerido, x);
    EnSi(CambiaReal(ln.descuento1, en.d1), Dto1, x);
    EnSi(CambiaReal(ln.descuento2, en.d2), Dto2, x);
    EnSi(CambiaReal(ln.descuento3, en.d3), Dto3, x);
    EnSi(CambiaContinuidad(v, en, ln), Continuidad, x);
    EnSi(CambiaTexto(ln.nuevoNombreProv, en.nom), NuevoNombre, x);
    EnSi(CambiaTexto(ln.observacionesProv, en.obs), Observaciones, x);
  }

  lemma EnSi(b: bool, c: Campo, x: Campo)
    ensures x in Si(b, c) <==> b && x == c
  {
  }

  /** ... and then it holds that new value. */
  lemma ValoresProveedor(v: Version, en: Entradas, ln: SugeridoLinea)
    ensures var n := AsignarProveedor(v, en, ln);
            (CambiaNuevoSugerido(v, en, ln) ==> n.nuevoSugeridoProv == en.nsug != ln.nuevoSugeridoProv)
            && (CambiaReal(ln.descuento1, en.d1) ==> n.descuento1 == en.d1 != ln.descuento1)
            && (CambiaReal(ln.descuento2, en.d2) ==> n.descuento2 == en.d2 != ln.descuento2)
            && (CambiaReal(ln.descuento3, en.d3) ==> n.descuento3 == en.d3 != ln.descuento3)
            && (CambiaContinuidad(v, en, ln) ==> n.continuidadActivo == ValorContinuidad(v, en) != ln.continuidadActivo)
            && (CambiaTexto(ln.nuevoNombreProv, en.nom) ==> n.nuevoNombreProv == en.nom != ln.nuevoNombreProv)
            && (CambiaTexto(ln.observacionesProv, en.obs) ==> n.observacionesProv == en.obs != ln.observacionesProv)
  {
  }

  /** Under `Compras/admin/sugeridos.py` a supplier sets its own quantity only on class A or B lines. */
  lemma NuevoSugeridoSoloAB(u: Usuario, post: Post, lotes: map<int, string>, ln: SugeridoLinea)
    requires EsProveedor(Paquete, u) && EditarLinea(Paquete, u, post, lotes, ln).Editada?
    requires NuevoSugerido in EditarLinea(Paquete, u, post, lotes, ln).edicion.campos
    ensures ClaseDe(ln) == "A" || ClaseDe(ln) == "B"
  {
    CambiosProveedorReales(Paquete, LeerEntradas(Paquete, post, ln.id), ln);
  }

  /** Under `Compras/admin/sugeridos.py` the internal quantity of a class C line needs the `clasificacion_c` group. */
  lemma ClaseCProtegida(u: Usuario, post: Post, lotes: map<int, string>, ln: SugeridoLinea)
    requires ClaseDe(ln) == "C" && GRUPO_CLASE_C !in u.grupos
    requires !EsProveedor(Paquete, u) && EditarLinea(Paquete, u, post, lotes, ln).Editada?
    ensures Interno !in EditarLinea(Paquete, u, post, lotes, ln).edicion.campos
    ensures EditarLinea(Paquete, u, post, lotes, ln).edicion.linea.sugeridoInterno == ln.sugeridoInterno
  {
    var en := LeerEntradas(Paquete, post, ln.id);
    assert EditarLinea(Paquete, u, post, lotes, ln) == Editada(EdicionInterna(Paquete, u, en, ln), None);
    assert !CambiaInterno(Paquete, u, en, ln);
    IncluyeSi(false, Interno, CambiaClase(en, ln), Clase);
  }

  /**
   * The continuity flag. `Compras/admin.py` sets it to whether the input
   * was sent non-empty, so a line sent without it is switched off;
   * `Compras/admin/sugeridos.py` only looks at whether the input was sent,
   * so it can switch the flag on but never off.
   */
  lemma ContinuidadSegunVersion(v: Version, en: Entradas, ln: SugeridoLinea)
    ensures v == Anterior ==> AsignarProveedor(v, en, ln).continuidadActivo == Verdadero(en.cont)
    ensures v == Paquete ==> AsignarProveedor(v, en, ln).continuidadActivo == (ln.continuidadActivo || en.cont.Some?)
  {
  }

  /** A class sent by an internal user is stored stripped and in upper case. */
  lemma ClaseNormalizada(u: Usuario, post: Post, lotes: map<int, string>, ln: SugeridoLinea)
    requires !EsProveedor(Paquete, u) && EditarLinea(Paquete, u, post, lotes, ln).Editada?
    requires Clase in EditarLinea(Paquete, u, post, lotes, ln).edicion.campos
    ensures Clave("clasificacion_", ln.id) in post
    ensures EditarLinea(Paquete, u, post, lotes, ln).edicion.linea.clasificacion
            == Some(Upper(Strip(post[Clave("clasificacion_", ln.id)])))
  {
    var en := LeerEntradas(Paquete, post, ln.id);
    var ci := CambiaInterno(Paquete, u, en, ln);
    assert EditarLinea(Paquete, u, post, lotes, ln).edicion == EdicionInterna(Paquete, u, en, ln);
    IncluyeSi(ci, Interno, CambiaClase(en, ln), Clase);
    assert en.clas == Get(post, Clave("clasificacion_", ln.id));
  }

  // ------------------------------------------------------------ Saving and propagation

  /** The lines of the table. */
  type Tabla = map<int, SugeridoLinea>

  /** `save(update_fields=...)`: `Compras/admin.py` writes its eight fields, `Compras/admin/sugeridos.py` only those changed. */
  function Guardar(v: Version, actual: SugeridoLinea, e: Edicion): SugeridoLinea
  {
    CopiarCampos(actual, e.linea, if v == Anterior then CAMPOS_ANTERIOR else e.campos)
  }

  /** Another line of the same article in the same lot. */
  predicate EsHermano(t: Tabla, id: int, ln: SugeridoLinea)
    requires id in t
  {
    id != ln.id && t[id].lote == ln.lote && t[id].codigoArticulo == ln.codigoArticulo
  }

  function Hermanos(t: Tabla, ln: SugeridoLinea): set<int>
  {
    set id | id in t && EsHermano(t, id, ln)
  }

  /** The discounts that were read replace a sibling's. */
  function AplicarDtos(h: SugeridoLinea, ds: Dtos): SugeridoLinea
  {
    h.(descuento1 := if ds.d1.Some? then ds.d1 else h.descuento1,
       descuento2 := if ds.d2.Some? then ds.d2 else h.descuento2,
       descuento3 := if ds.d3.Some? then ds.d3 else h.descuento3)
  }

  /** The table with the discounts applied to the lines `s`. */
  function AplicarEn(t: Tabla, s: set<int>, ds: Dtos): (r: Tabla)
  {
    map id | id in t :: if id in s then AplicarDtos(t[id], ds) else t[id]
  }

  /** Whether some discount that was read differs from the sibling's (`h_cambio`). */
  predicate CambiaDtos(h: SugeridoLinea, ds: Dtos)
  {
    (ds.d1.Some? && h.descuento1 != ds.d1) || (ds.d2.Some? && h.descuento2 != ds.d2)
    || (ds.d3.Some? && h.descuento3 != ds.d3)
  }

  /** A sibling is saved exactly when applying the discounts changes it. */
  lemma CambiaDtosSiCambia(h: SugeridoLinea, ds: Dtos)
    ensures CambiaDtos(h, ds) <==> AplicarDtos(h, ds) != h
  {
    if !CambiaDtos(h, ds) {
      assert AplicarDtos(h, ds) == h;
    }
  }

  /** The lines of `s` whose discounts the propagation changes (each is saved and counted). */
  function Cambiados(t: Tabla, s: set<int>, ds: Dtos): set<int>
  {
    set id | id in t && id in s && CambiaDtos(t[id], ds)
  }

  function Propagar(t: Tabla, ln: SugeridoLinea, ds: Dtos): Tabla
  {
    AplicarEn(t, Hermanos(t, ln), ds)
  }

  function CuentaPropagados(t: Tabla, ln: SugeridoLinea, ds: Dtos): nat
  {
    |Cambiados(t, Hermanos(t, ln), ds)|
  }

  /** Propagation touches only the siblings, and only their discounts, setting each one that was read. */
  lemma PropagacionExacta(t: Tabla, ln: SugeridoLinea, ds: Dtos, id: int)
    requires id in t
    ensures id in Propagar(t, ln, ds)
    ensures !EsHermano(t, id, ln) ==> Propagar(t, ln, ds)[id] == t[id]
    ensures EsHermano(t, id, ln) ==>
              SoloDifiere(t[id], Propagar(t, ln, ds)[id], {Dto1, Dto2, Dto3})
              && (ds.d1.Some? ==> Propagar(t, ln, ds)[id].descuento1 == ds.d1)
              && (ds.d2.Some? ==> Propagar(t, ln, ds)[id].descuento2 == ds.d2)
              && (ds.d3.Some? ==> Propagar(t, ln, ds)[id].descuento3 == ds.d3)
  {
  }

  /** A propagation that counts nothing leaves the table as it was. */
  lemma PropagarSinCambios(t: Tabla, ln: SugeridoLinea, ds: Dtos)
    requires CuentaPropagados(t, ln, ds) == 0
    ensures Propagar(t, ln, ds) == t
  {
    var r := Propagar(t, ln, ds);
    forall id | id in t
      ensures r[id] == t[id]
    {
      assert id !in Cambiados(t, Hermanos(t, ln), ds);
    }
    assert r.Keys == t.Keys;
  }

  /** The inner loop over the siblings: each one that changes is saved and counted. */
  method PropagarHermanos(t: Tabla, ln: SugeridoLinea, ds: Dtos) returns (r: Tabla, n: nat)
    ensures r == Propagar(t, ln, ds) && n == CuentaPropagados(t, ln, ds)
  {
    var todos := Hermanos(t, ln);
    var pendientes := todos;
    ghost var hechos: set<int> := {};
    r := t;
    n := 0;
    AplicarEnNinguno(t, ds);
    while pendientes != {}
      invariant pendientes <= todos && hechos == todos - pendientes && todos <= t.Keys
      invariant r == AplicarEn(t, hechos, ds) && n == |Cambiados(t, hechos, ds)|
      decreases |pendientes|
    {
      var h :| h in pendientes;
      PropagarPaso(t, hechos, h, ds, r, n);
      if CambiaDtos(r[h], ds) {
        r := r[h := AplicarDtos(r[h], ds)];
        n := n + 1;
      }
      pendientes := pendientes - {h};
      hechos := hechos + {h};
    }
    assert hechos == todos;
  }

  lemma AplicarEnNinguno(t: Tabla, ds: Dtos)
    ensures AplicarEn(t, {}, ds) == t && Cambiados(t, {}, ds) == {}
  {
    assert AplicarEn(t, {}, ds).Keys == t.Keys;
  }

  /** One sibling handled: the table and the count move from `hechos` to `hechos + {h}`. */
  lemma PropagarPaso(t: Tabla, hechos: set<int>, h: int, ds: Dtos, r: Tabla, n: nat)
    requires h in t && h !in hechos
    requires r == AplicarEn(t, hechos, ds) && n == |Cambiados(t, hechos, ds)|
    ensures h in r && r[h] == t[h]
    ensures CambiaDtos(r[h], ds) ==>
              r[h := AplicarDtos(r[h], ds)] == AplicarEn(t, hechos + {h}, ds) && n + 1 == |Cambiados(t, hechos + {h}, ds)|
    ensures !CambiaDtos(r[h], ds) ==> r == AplicarEn(t, hechos + {h}, ds) && n == |Cambiados(t, hechos + {h}, ds)|
  {
    CambiaDtosSiCambia(t[h], ds);
    if CambiaDtos(t[h], ds) {
      assert Cambiados(t, hechos + {h}, ds) == Cambiados(t, hechos, ds) + {h};
    } else {
      assert Cambiados(t, hechos + {h}, ds) == Cambiados(t, hechos, ds);
    }
  }

  // ------------------------------------------------------------ The whole POST

  /** The table and the count of saved lines as the loop goes. */
  datatype Estado = Estado(tabla: Tabla, actualizados: nat)

  /** One line of the loop: propagate its discounts, then save it if it changed. */
  function Paso(v: Version, u: Usuario, post: Post, lotes: map<int, string>, e: Estado, ln: SugeridoLinea): (r: Estado)
  {
    Aplicar(v, e, ln, EditarLinea(v, u, post, lotes, ln))
  }

  /** The effect of the handler's decision for one line on the table and the count. */
  function Aplicar(v: Version, e: Estado, ln: SugeridoLinea, d: Decision): (r: Estado)
  {
    match d
    case Omitida => e
    case Editada(ed, prop) =>
      var t1 := if prop.Some? then Propagar(e.tabla, ln, prop.value) else e.tabla;
      var n1 := e.actualizados + (if prop.Some? then CuentaPropagados(e.tabla, ln, prop.value) else 0);
      if ed.campos == {} || ln.id !in t1 then Estado(t1, n1)
      else Estado(t1[ln.id := Guardar(v, t1[ln.id], ed)], n1 + 1)
  }

  /** The loop over the lines read before it, from the first to the last. */
  function Recorrer(v: Version, u: Usuario, post: Post, lotes: map<int, string>, t0: Tabla,
                    lineas: seq<SugeridoLinea>): (r: Estado)
  {
    if lineas == [] then Estado(t0, 0)
    else Paso(v, u, post, lotes, Recorrer(v, u, post, lotes, t0, lineas[..|lineas| - 1]), lineas[|lineas| - 1])
  }

  /** The lines of `orden`, read from the table before the loop. */
  function Instantanea(t0: Tabla, orden: seq<int>): (r: seq<SugeridoLinea>)
    requires forall i :: 0 <= i < |orden| ==> orden[i] in t0
  {
    seq(|orden|, i requires 0 <= i < |orden| => t0[orden[i]])
  }

  datatype Respuesta = Respuesta(tabla: Tabla, actualizados: nat, mensaje: string)

  function Mensaje(n: nat): (m: string)
  {
    if n > 0 then NatATexto(n) + " línea(s) actualizada(s)." else "No hubo cambios aplicables."
  }

  /** `orden` lists each line the POST names, once. */
  predicate Seleccion(v: Version, post: Post, t0: Tabla, orden: seq<int>)
  {
    (forall i, j :: 0 <= i < j < |orden| ==> orden[i] != orden[j])
    && (forall i :: 0 <= i < |orden| ==> orden[i] in t0)
    && (set i | 0 <= i < |orden| :: orden[i]) == IdsDelPost(post, Prefijos(v)) * t0.Keys
  }

  /** One iteration of the loop over the selected lines, once the handler has decided what to do with it. */
  method TratarLinea(v: Version, t: Tabla, n: nat, ln: SugeridoLinea, d: Decision) returns (t': Tabla, n': nat)
    ensures Estado(t', n') == Aplicar(v, Estado(t, n), ln, d)
  {
    t', n' := t, n;
    if d.Editada? {
      if d.propagar.Some? {
        var t1, n1 := PropagarHermanos(t, ln, d.propagar.value);
        t', n' := t1, n + n1;
      }
      if d.edicion.campos != {} && ln.id in t' {
        t' := t'[ln.id := Guardar(v, t'[ln.id], d.edicion)];
        n' := n' + 1;
      }
    }
  }

  lemma RecorrerPaso(v: Version, u: Usuario, post: Post, lotes: map<int, string>, t0: Tabla,
                     lineas: seq<SugeridoLinea>, k: nat)
    requires k < |lineas|
    ensures Recorrer(v, u, post, lotes, t0, lineas[..k + 1])
            == Paso(v, u, post, lotes, Recorrer(v, u, post, lotes, t0, lineas[..k]), lineas[k])
  {
    assert lineas[..k + 1][..k] == lineas[..k];
  }

  /** The POST branch of `changelist_view`. */
  method ProcesarPost(v: Version, u: Usuario, post: Post, lotes: map<int, string>, t0: Tabla, orden: seq<int>)
    returns (r: Respuesta)
    requires Seleccion(v, post, t0, orden)
    ensures var e := Recorrer(v, u, post, lotes, t0, Instantanea(t0, orden));
            r == Respuesta(e.tabla, e.actualizados, Mensaje(e.actualizados))
  {
    var lineas := Instantanea(t0, orden);
    var t := t0;
    var n := 0;
    var k := 0;
    while k < |lineas|
      invariant 0 <= k <= |lineas|
      invariant Estado(t, n) == Recorrer(v, u, post, lotes, t0, lineas[..k])
    {
      t, n := TratarLinea(v, t, n, lineas[k], EditarLinea(v, u, post, lotes, lineas[k]));
      RecorrerPaso(v, u, post, lotes, t0, lineas, k);
      k := k + 1;
    }
    assert lineas[..k] == lineas;
    r := Respuesta(t, n, Mensaje(n));
  }

  // ------------------------------------------------------------ Properties of the whole POST

  /** Every editable field. */
  const CAMPOS_EDITABLES: set<Campo> := CAMPOS_ANTERIOR + {Clase}

  /** `t` has the keys of `t0`, and each of its lines differs from the one in `t0` only in editable fields. */
  predicate SoloEditables(t0: Tabla, t: Tabla)
  {
    t.Keys == t0.Keys && forall id :: id in t ==> SoloDifiere(t0[id], t[id], CAMPOS_EDITABLES)
  }

  lemma SoloEditablesTransitivo(t0: Tabla, t1: Tabla, t2: Tabla)
    requires SoloEditables(t0, t1) && SoloEditables(t1, t2)
    ensures SoloEditables(t0, t2)
  {
  }

  /** One step neither adds nor removes lines, writes only editable fields, and never lowers the count. */
  lemma AplicarSoloEditables(v: Version, e: Estado, ln: SugeridoLinea, d: Decision)
    ensures SoloEditables(e.tabla, Aplicar(v, e, ln, d).tabla)
    ensures Aplicar(v, e, ln, d).actualizados >= e.actualizados
  {
    if d.Editada? {
      var ed := d.edicion;
      var t1 := if d.propagar.Some? then Propagar(e.tabla, ln, d.propagar.value) else e.tabla;
      assert SoloEditables(e.tabla, t1) by {
        if d.propagar.Some? {
          forall id | id in e.tabla
            ensures id in t1 && SoloDifiere(e.tabla[id], t1[id], CAMPOS_EDITABLES)
          {
            PropagacionExacta(e.tabla, ln, d.propagar.value, id);
          }
        }
      }
      if ed.campos != {} && ln.id in t1 {
        GuardarEditable(t1, ln.id, Guardar(v, t1[ln.id], ed));
        SoloEditablesTransitivo(e.tabla, t1, t1[ln.id := Guardar(v, t1[ln.id], ed)]);
      }
    }
  }

  /** Writing one line through `Guardar`'s copy of fields touches only editable fields. */
  lemma GuardarEditable(t: Tabla, id: int, nueva: SugeridoLinea)
    requires id in t && SoloDifiere(t[id], nueva, CAMPOS_EDITABLES)
    ensures SoloEditables(t, t[id := nueva])
  {
  }

  /** The whole loop writes only editable fields of lines that exist. */
  lemma {:induction false} RecorrerSoloEditables(v: Version, u: Usuario, post: Post, lotes: map<int, string>, t0: Tabla,
                                                 lineas: seq<SugeridoLinea>)
    ensures SoloEditables(t0, Recorrer(v, u, post, lotes, t0, lineas).tabla)
    decreases |lineas|
  {
    if lineas != [] {
      var previo := Recorrer(v, u, post, lotes, t0, lineas[..|lineas| - 1]);
      RecorrerSoloEditables(v, u, post, lotes, t0, lineas[..|lineas| - 1]);
      var ln := lineas[|lineas| - 1];
      AplicarSoloEditables(v, previo, ln, EditarLinea(v, u, post, lotes, ln));
      SoloEditablesTransitivo(t0, previo.tabla, Recorrer(v, u, post, lotes, t0, lineas).tabla);
    }
  }

  /** One step leaves alone a line that is neither the one edited nor of its article and lot. */
  lemma AplicarMarco(v: Version, e: Estado, ln: SugeridoLinea, d: Decision, id: int)
    requires id in e.tabla && id != ln.id
    requires e.tabla[id].lote != ln.lote || e.tabla[id].codigoArticulo != ln.codigoArticulo
    ensures id in Aplicar(v, e, ln, d).tabla && Aplicar(v, e, ln, d).tabla[id] == e.tabla[id]
  {
    if d.Editada? && d.propagar.Some? {
      PropagacionExacta(e.tabla, ln, d.propagar.value, id);
    }
  }

  /**
   * A line that is not among those sent, and shares its article and lot with
   * none of them, is left as it was.
   */
  lemma {:induction false} RecorrerMarco(v: Version, u: Usuario, post: Post, lotes: map<int, string>, t0: Tabla,
                                         lineas: seq<SugeridoLinea>, id: int)
    requires id in t0
    requires forall i :: 0 <= i < |lineas| ==>
               lineas[i].id != id && (lineas[i].lote != t0[id].lote || lineas[i].codigoArticulo != t0[id].codigoArticulo)
    ensures id in Recorrer(v, u, post, lotes, t0, lineas).tabla
    ensures Recorrer(v, u, post, lotes, t0, lineas).tabla[id] == t0[id]
    decreases |lineas|
  {
    if lineas != [] {
      var previo := Recorrer(v, u, post, lotes, t0, lineas[..|lineas| - 1]);
      RecorrerMarco(v, u, post, lotes, t0, lineas[..|lineas| - 1], id);
      var ln := lineas[|lineas| - 1];
      AplicarMarco(v, previo, ln, EditarLinea(v, u, post, lotes, ln), id);
    }
  }

  /** A step that counts nothing writes nothing. */
  lemma AplicarSinCambios(v: Version, e: Estado, ln: SugeridoLinea, d: Decision)
    requires Aplicar(v, e, ln, d).actualizados == 0
    ensures e.actualizados == 0 && Aplicar(v, e, ln, d).tabla == e.tabla
  {
    if d.Editada? && d.propagar.Some? {
      PropagarSinCambios(e.tabla, ln, d.propagar.value);
    }
  }

  /** When the reply says there were no applicable changes, the table is as it was. */
  lemma {:induction false} SinCambiosSinEscrituras(v: Version, u: Usuario, post: Post, lotes: map<int, string>, t0: Tabla,
                                                   lineas: seq<SugeridoLinea>)
    requires Recorrer(v, u, post, lotes, t0, lineas).actualizados == 0
    ensures Recorrer(v, u, post, lotes, t0, lineas).tabla == t0
    ensures Mensaje(Recorrer(v, u, post, lotes, t0, lineas).actualizados) == "No hubo cambios aplicables."
    decreases |lineas|
  {
    if lineas != [] {
      var previo := Recorrer(v, u, post, lotes, t0, lineas[..|lineas| - 1]);
      var ln := lineas[|lineas| - 1];
      AplicarSinCambios(v, previo, ln, EditarLinea(v, u, post, lotes, ln));
      SinCambiosSinEscrituras(v, u, post, lotes, t0, lineas[..|lineas| - 1]);
    }
  }

  /**
   * Under `Compras/admin/sugeridos.py` a save writes only the fields the
   * handler changed, so the current row's other fields, such as a discount
   * propagated to it earlier in the same POST, survive.
   */
  lemma GuardadoSoloCambios(actual: SugeridoLinea, e: Edicion)
    ensures SoloDifiere(actual, Guardar(Paquete, actual, e), e.campos)
    ensures forall c :: c in e.campos ==> CopiarCampos(actual, e.linea, {c}) == CopiarCampos(actual, Guardar(Paquete, actual, e), {c})
  {
  }

  // ------------------------------------------------------------ A discount undone by a stale save

  /** Two lines of the same article in lot 10, supplier 7, with no discount. */
  function LineaEjemplo(id: int): (ln: SugeridoLinea)
    ensures ln.id == id && ln.descuento1.None?
  {
    SugeridoLinea(id, 10, Some(7), "1", None, "ART", None, None, None, None, None, None, None, None, None, None,
                  None, None, None, None, None, None, false, None, None)
  }

  /** A discount for line 1 and a remark for line 2, sent by the supplier. */
  const POST_EJEMPLO: Post := map["descuento_prov_pct_1" := "5", "observaciones_prov_2" := "x"]

  const PROVEEDOR_EJEMPLO := Usuario({}, Some(Perfil(Some(7))))

  function TablaEjemplo(): Tabla
  {
    map[1 := LineaEjemplo(1), 2 := LineaEjemplo(2)]
  }

  lemma EntradasEjemplo(v: Version)
    ensures LeerEntradas(v, POST_EJEMPLO, 1) == Entradas(Some(5.0), None, None, None, None, None, None, None, None)
    ensures LeerEntradas(v, POST_EJEMPLO, 2) == Entradas(None, None, None, None, None, None, Some("x"), None, None)
  {
    ClavesEjemplo(1);
    ClavesEjemplo(2);
    assert Dec(Some("5")) == Some(5.0) by {
      CincoDecimal();
    }
  }

  /** Of the inputs of lines 1 and 2, only the two sent are present. */
  lemma ClavesEjemplo(pid: int)
    requires pid == 1 || pid == 2
    ensures Get(POST_EJEMPLO, Clave("descuento_prov_pct_", pid)) == if pid == 1 then Some("5") else None
    ensures Get(POST_EJEMPLO, Clave("observaciones_prov_", pid)) == if pid == 2 then Some("x") else None
    ensures Get(POST_EJEMPLO, Clave("sugerido_interno_", pid)) == None
    ensures Get(POST_EJEMPLO, Clave("descuento_prov_pct_2_", pid)) == None
    ensures Get(POST_EJEMPLO, Clave("descuento_prov_pct_3_", pid)) == None
    ensures Get(POST_EJEMPLO, Clave("nuevo_sugerido_prov_", pid)) == None
    ensures Get(POST_EJEMPLO, Clave("continuidad_activo_", pid)) == None
    ensures Get(POST_EJEMPLO, Clave("nuevo_nombre_prov_", pid)) == None
    ensures Get(POST_EJEMPLO, Clave("clasificacion_", pid)) == None
  {
    assert IntATexto(1) == "1" && IntATexto(2) == "2";
    var o := Clave("observaciones_prov_", pid);
    var c := Clave("continuidad_activo_", pid);
    var d := Clave("descuento_prov_pct_", pid);
    assert |o| == |c| == |d| == 20 && o[19] == c[19] == d[19];
    assert o[0] == 'o' && c[0] == 'c' && d[0] == 'd';
    if pid == 1 {
      assert d == "descuento_prov_pct_1";
    } else {
      assert o == "observaciones_prov_2";
    }
  }

  lemma CincoDecimal()
    ensures Dec(Some("5")) == Some(5.0)
  {
    assert Reemplazar("5", ',', '.') == "5";
    assert ParseInt("5") == Some(5) by {
      StripSinBordes("5");
    }
    ParseDecimalEntero("5");
  }

  /** The decisions for the two lines: a discount to propagate on line 1, a remark on line 2. */
  lemma DecisionesEjemplo(v: Version)
    ensures EditarLinea(v, PROVEEDOR_EJEMPLO, POST_EJEMPLO, map[], LineaEjemplo(1))
            == Editada(EdicionUno(), Some(Dtos(Some(5.0), None, None)))
    ensures EditarLinea(v, PROVEEDOR_EJEMPLO, POST_EJEMPLO, map[], LineaEjemplo(2)) == Editada(EdicionDos(), None)
  {
    AdmitidaEjemplo(v, 1);
    AdmitidaEjemplo(v, 2);
    LibreEjemplo(1);
    LibreEjemplo(2);
    assert EditarLinea(v, PROVEEDOR_EJEMPLO, POST_EJEMPLO, map[], LineaEjemplo(1))
           == EdicionProveedor(v, LeerEntradas(v, POST_EJEMPLO, 1), LineaEjemplo(1));
    assert EditarLinea(v, PROVEEDOR_EJEMPLO, POST_EJEMPLO, map[], LineaEjemplo(2))
           == EdicionProveedor(v, LeerEntradas(v, POST_EJEMPLO, 2), LineaEjemplo(2));
    EntradasEjemplo(v);
    EdicionesEjemplo(v);
  }

  /** The supplier may edit both lines. */
  lemma AdmitidaEjemplo(v: Version, id: int)
    ensures EsProveedor(v, PROVEEDOR_EJEMPLO) && ProveedorAdmitido(v, PROVEEDOR_EJEMPLO, LineaEjemplo(id))
  {
  }

  /** Neither line is locked. */
  lemma LibreEjemplo(id: int)
    ensures !Bloqueada(LineaEjemplo(id), EstadoLote(map[], LineaEjemplo(id)))
  {
    var ln := LineaEjemplo(id);
    assert EstadoLote(map[], ln) == "";
    SinBloqueo(ln);
  }

  /** A line with no class and no state, in a lot of unknown state, is not locked. */
  lemma SinBloqueo(ln: SugeridoLinea)
    requires ln.clasificacion.None? && ln.estadoLinea.None?
    ensures !Bloqueada(ln, "")
  {
    NormalizadoVacio();
    VacioNoEsEstado(ClaseDe(ln));
    VacioNoEsEstado(Normalizado(ln.estadoLinea));
    VacioNoEsEstado("");
  }

  lemma VacioNoEsEstado(x: string)
    requires x == ""
    ensures x != ORDENADA && x != CONFIRMADO && x != COMPLETADO && x != "I"
  {
  }

  lemma NormalizadoVacio()
    ensures Normalizado(None) == ""
  {
    assert Strip("") == "";
    assert Upper("") == "";
  }

  lemma EdicionesEjemplo(v: Version)
    ensures EdicionProveedor(v, Entradas(Some(5.0), None, None, None, None, None, None, None, None), LineaEjemplo(1))
            == Editada(Edicion(LineaEjemplo(1).(descuento1 := Some(5.0)), {Dto1}), Some(Dtos(Some(5.0), None, None)))
    ensures EdicionProveedor(v, Entradas(None, None, None, None, None, None, Some("x"), None, None), LineaEjemplo(2))
            == Editada(Edicion(LineaEjemplo(2).(observacionesProv := Some("x")), {Observaciones}), None)
  {
  }

  /** Line 1's discount reaches line 2, its one sibling. */
  lemma PropagacionEjemplo()
    ensures Propagar(TablaEjemplo(), LineaEjemplo(1), Dtos(Some(5.0), None, None))
            == TablaEjemplo()[2 := LineaEjemplo(2).(descuento1 := Some(5.0))]
    ensures CuentaPropagados(TablaEjemplo(), LineaEjemplo(1), Dtos(Some(5.0), None, None)) == 1
  {
    var t := TablaEjemplo();
    assert Hermanos(t, LineaEjemplo(1)) == {2};
    assert Cambiados(t, {2}, Dtos(Some(5.0), None, None)) == {2};
  }

  /** The loop over the two lines, step by step. */
  lemma RecorrerEjemplo(v: Version)
    ensures Recorrer(v, PROVEEDOR_EJEMPLO, POST_EJEMPLO, map[], TablaEjemplo(), [LineaEjemplo(1), LineaEjemplo(2)]).tabla
            == TablaEjemplo()[1 := Guardar(v, LineaEjemplo(1), EdicionUno())]
                             [2 := Guardar(v, LineaEjemplo(2).(descuento1 := Some(5.0)), EdicionDos())]
  {
    var u, post, t := PROVEEDOR_EJEMPLO, POST_EJEMPLO, TablaEjemplo();
    var l1, l2 := LineaEjemplo(1), LineaEjemplo(2);
    var d1 := Editada(EdicionUno(), Some(Dtos(Some(5.0), None, None)));
    var d2 := Editada(EdicionDos(), None);
    assert Recorrer(v, u, post, map[], t, [l1, l2]) == Aplicar(v, Aplicar(v, Estado(t, 0), l1, d1), l2, d2) by {
      DecisionesEjemplo(v);
      RecorrerDos(v, u, post, map[], t, l1, l2, d1, d2);
    }
    var e1 := Aplicar(v, Estado(t, 0), l1, d1);
    var l2p := l2.(descuento1 := Some(5.0));
    PrimerPasoEjemplo(v);
    assert Aplicar(v, e1, l2, d2).tabla == e1.tabla[2 := Guardar(v, e1.tabla[2], EdicionDos())];
    MapaDosEscrituras(t, 1, 2, l2p, Guardar(v, l1, EdicionUno()), Guardar(v, l2p, EdicionDos()));
  }

  /** The first line's step: its discount reaches line 2, then line 1 is saved. */
  lemma PrimerPasoEjemplo(v: Version)
    ensures var t1 := TablaEjemplo()[2 := LineaEjemplo(2).(descuento1 := Some(5.0))];
            Aplicar(v, Estado(TablaEjemplo(), 0), LineaEjemplo(1), Editada(EdicionUno(), Some(Dtos(Some(5.0), None, None)))).tabla
            == t1[1 := Guardar(v, LineaEjemplo(1), EdicionUno())]
            && 2 in t1 && t1[2] == LineaEjemplo(2).(descuento1 := Some(5.0))
  {
    var t1 := TablaEjemplo()[2 := LineaEjemplo(2).(descuento1 := Some(5.0))];
    PropagacionEjemplo();
    assert t1[1] == LineaEjemplo(1);
  }

  lemma MapaDosEscrituras<K, V>(m: map<K, V>, a: K, b: K, x: V, y: V, z: V)
    requires a != b
    ensures m[b := x][a := y][b := z] == m[a := y][b := z]
  {
  }

  /** The loop over two lines whose decisions are known. */
  lemma RecorrerDos(v: Version, u: Usuario, post: Post, lotes: map<int, string>, t: Tabla,
                    l1: SugeridoLinea, l2: SugeridoLinea, d1: Decision, d2: Decision)
    requires EditarLinea(v, u, post, lotes, l1) == d1 && EditarLinea(v, u, post, lotes, l2) == d2
    ensures Recorrer(v, u, post, lotes, t, [l1, l2]) == Aplicar(v, Aplicar(v, Estado(t, 0), l1, d1), l2, d2)
  {
    var lineas := [l1, l2];
    RecorrerPaso(v, u, post, lotes, t, lineas, 0);
    RecorrerPaso(v, u, post, lotes, t, lineas, 1);
    assert lineas[..0] == [] && lineas[..2] == lineas;
  }

  function EdicionUno(): Edicion
  {
    Edicion(LineaEjemplo(1).(descuento1 := Some(5.0)), {Dto1})
  }

  function EdicionDos(): Edicion
  {
    Edicion(LineaEjemplo(2).(observacionesProv := Some("x")), {Observaciones})
  }

  /**
   * As written in `Compras/admin.py`: line 1's discount is propagated to line
   * 2, then line 2's save writes all eight fields of the copy read before the
   * loop, and the discount is gone.
   */
  lemma DescuentoPisadoAnterior()
    ensures Recorrer(Anterior, PROVEEDOR_EJEMPLO, POST_EJEMPLO, map[], TablaEjemplo(),
                     [LineaEjemplo(1), LineaEjemplo(2)]).tabla == TablaEjemplo()[1 := LineaEjemplo(1).(descuento1 := Some(5.0))]
                                                               [2 := LineaEjemplo(2).(observacionesProv := Some("x"))]
  {
    RecorrerEjemplo(Anterior);
  }

  /** The copy in `Compras/admin/sugeridos.py`, which saves only the changed fields, keeps it. */
  lemma DescuentoConservadoPaquete()
    ensures Recorrer(Paquete, PROVEEDOR_EJEMPLO, POST_EJEMPLO, map[], TablaEjemplo(),
                     [LineaEjemplo(1), LineaEjemplo(2)]).tabla
            == TablaEjemplo()[1 := LineaEjemplo(1).(descuento1 := Some(5.0))]
                             [2 := LineaEjemplo(2).(descuento1 := Some(5.0), observacionesProv := Some("x"))]
  {
    RecorrerEjemplo(Paquete);
  }
}

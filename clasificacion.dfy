/**
 * The rule look-up, the warehouse columns and the row selection of
 * `Compras/utils.py`: which temporary articles of a process take part in the
 * ABC classification, and the class a cumulative share falls into.
 */
module Clasificacion {
  import opened Resultados
  import opened Textos
  import opened Decimales
  import opened Ordenacion
  import UtilsPedido

  // -------------------------------------------------------- Exclusions

  const DEPARTAMENTOS_EXCLUIDOS: seq<string> := [
    "BONOS MERCASUR", "BONOS PROVEEDORES", "CARTERA", "CONCESION CARNES",
    "CONCESION DISTRAVES", "CONTABILIDAD", "GASTOS NO USAR",
    "INGRESOS NO USAR", "REDENCION DE PUNTOS", "BOLSAS USO INTERNO"]

  const MARCAS_EXCLUIDAS: seq<string> := [
    "MERCASUR FRUVER", "MERCASUR PANADERIA", "BOCADILLOS CATICA CONSIGN",
    "UNBROKEN CONSIGNACION", "UMBROKEN MASCOTAS CONSIGN"]

  const CLASIFICACION_EXCLUIDAS: seq<string> := ["I", "T", "R"]

  /** The class of a share no active rule covers. */
  const CLASE_DEFECTO := "C"

  // ------------------------------------------------------------- Rules

  /** A `ReglaClasificacion` row. */
  datatype Regla = Regla(activa: bool, orden: int, umbralMinimo: real, umbralMaximo: real, clase: string)

  predicate PorOrden(a: Regla, b: Regla) { a.orden < b.orden }

  /** `filter(activa=True)`, in table order. */
  function Activas(tabla: seq<Regla>): (r: seq<Regla>)
    ensures |r| <= |tabla|
    ensures forall x :: x in r <==> x in tabla && x.activa
  {
    if tabla == [] then []
    else
      var previas := Activas(tabla[..|tabla| - 1]);
      var u := tabla[|tabla| - 1];
      assert tabla == tabla[..|tabla| - 1] + [u];
      if u.activa then previas + [u] else previas
  }

  /** `filter(activa=True).order_by('orden')`, ties kept in table order. */
  function ReglasVigentes(tabla: seq<Regla>): seq<Regla>
  {
    Ordenar(Activas(tabla), PorOrden)
  }

  predicate Aplica(r: Regla, acumulado: real)
  {
    r.umbralMinimo <= acumulado < r.umbralMaximo
  }

  /** The class of the first rule covering `acumulado`, or the default. */
  function PrimeraClase(reglas: seq<Regla>, acumulado: real): string
  {
    if reglas == [] then CLASE_DEFECTO
    else if Aplica(reglas[0], acumulado) then reglas[0].clase
    else PrimeraClase(reglas[1..], acumulado)
  }

  /** `calcular_clasificacion`; the units argument is unused. */
  function CalcularClasificacion(tabla: seq<Regla>, acumulado: real): string
  {
    PrimeraClase(ReglasVigentes(tabla), acumulado)
  }

  /** The rules are visited in `orden` order and are exactly the active ones. */
  lemma ReglasEnOrden(tabla: seq<Regla>)
    ensures Ordenada(ReglasVigentes(tabla), PorOrden)
    ensures forall x :: x in ReglasVigentes(tabla) <==> x in tabla && x.activa
  {
    PorOrdenDebil();
    OrdenarOrdenada(Activas(tabla), PorOrden);
    var v := ReglasVigentes(tabla);
    forall x ensures x in v <==> x in Activas(tabla) {
      assert x in v <==> x in multiset(v);
    }
  }

  lemma PorOrdenDebil()
    ensures OrdenDebil(PorOrden)
  {
  }

  /** The first rule that covers the share decides the class. */
  lemma {:induction false} PrimeraClaseCubre(reglas: seq<Regla>, acumulado: real, k: nat)
    requires k < |reglas| && Aplica(reglas[k], acumulado)
    requires forall j :: 0 <= j < k ==> !Aplica(reglas[j], acumulado)
    ensures PrimeraClase(reglas, acumulado) == reglas[k].clase
  {
    if k > 0 {
      assert !Aplica(reglas[0], acumulado);
      var resto := reglas[1..];
      forall j | 0 <= j < k - 1 ensures !Aplica(resto[j], acumulado) {
        assert resto[j] == reglas[j + 1];
      }
      PrimeraClaseCubre(resto, acumulado, k - 1);
    }
  }

  /** With no rule covering the share, the class is `C`. */
  lemma {:induction false} PrimeraClaseDefecto(reglas: seq<Regla>, acumulado: real)
    requires forall j :: 0 <= j < |reglas| ==> !Aplica(reglas[j], acumulado)
    ensures PrimeraClase(reglas, acumulado) == CLASE_DEFECTO
  {
    if reglas != [] {
      assert !Aplica(reglas[0], acumulado);
      var resto := reglas[1..];
      forall j | 0 <= j < |resto| ensures !Aplica(resto[j], acumulado) {
        assert resto[j] == reglas[j + 1];
      }
      PrimeraClaseDefecto(resto, acumulado);
    }
  }

  /** The class found is the default or the class of an active rule covering the share. */
  lemma {:induction false} ClaseDeRegla(tabla: seq<Regla>, acumulado: real)
    ensures var c := CalcularClasificacion(tabla, acumulado);
            c == CLASE_DEFECTO
            || exists r :: r in tabla && r.activa && Aplica(r, acumulado) && r.clase == c
  {
    ReglasEnOrden(tabla);
    PrimeraClaseRegla(ReglasVigentes(tabla), acumulado);
  }

  lemma {:induction false} PrimeraClaseRegla(reglas: seq<Regla>, acumulado: real)
    ensures var c := PrimeraClase(reglas, acumulado);
            c == CLASE_DEFECTO || exists r :: r in reglas && Aplica(r, acumulado) && r.clase == c
  {
    if reglas != [] && !Aplica(reglas[0], acumulado) {
      PrimeraClaseRegla(reglas[1..], acumulado);
      var c := PrimeraClase(reglas, acumulado);
      if c != CLASE_DEFECTO {
        var r :| r in reglas[1..] && Aplica(r, acumulado) && r.clase == c;
        assert r in reglas;
      }
    }
  }

  // ------------------------------------------------- Warehouse columns

  /** `get_campo_clasificacion_por_almacen`: the name is upper-cased but not stripped. */
  function CampoClasificacion(almacen: Option<string>): (r: Option<string>)
    ensures r.Some? <==> Upper(almacen.GetOr("")) in UtilsPedido.CAMPO_POR_ALMACEN
    ensures r.Some? ==> r.value in UtilsPedido.CAMPOS_CLASIFICACION
  {
    var a := Upper(almacen.GetOr(""));
    if a in UtilsPedido.CAMPO_POR_ALMACEN then Some(UtilsPedido.CAMPO_POR_ALMACEN[a]) else None
  }

  /** For a name without surrounding blanks it agrees with the order helper's look-up, which also strips. */
  lemma CampoComoPedido(s: string)
    requires Strip(Upper(s)) == Upper(s)
    ensures CampoClasificacion(Some(s)) == UtilsPedido.CampoClasificacion(Some(s))
  {
  }

  /** An `ArticuloClasificacionTemporal` row; `importe` is text as extracted. */
  datatype Temporal = Temporal(
    proceso: Option<int>,
    codigo: string,
    departamento: Option<string>,
    seccion: Option<string>,
    marca: Option<string>,
    descripcion: string,
    descat: Option<string>,
    referencia: Option<string>,
    almacen: Option<string>,
    clasificacion: Option<string>,
    clasificacion2: Option<string>,
    clasificacion3: Option<string>,
    clasificacion5: Option<string>,
    importe: Option<string>,
    unidades: Option<real>)

  /** The field of a temporary row that holds an ICG classification column. */
  function Columna(t: Temporal, campo: string): Option<string>
  {
    if campo == "CLASIFICACION" then t.clasificacion
    else if campo == "CLASIFICACION2" then t.clasificacion2
    else if campo == "CLASIFICACION3" then t.clasificacion3
    else if campo == "CLASIFICACION5" then t.clasificacion5
    else None
  }

  /**
   * `get_clasificacion_actual`, and the `clasificacion_actual` annotation of
   * the query: the warehouse's own classification field.
   */
  function ClasificacionActual(t: Temporal): Option<string>
  {
    match CampoClasificacion(t.almacen)
    case None => None
    case Some(campo) => Columna(t, campo)
  }

  /** A known warehouse reads the field named by its column; any other has no class. */
  lemma ActualPorAlmacen(t: Temporal)
    ensures var a := Upper(t.almacen.GetOr(""));
            (a == "MERCASUR CALDAS" ==> ClasificacionActual(t) == t.clasificacion)
            && (a == "MERCASUR CENTRO" ==> ClasificacionActual(t) == t.clasificacion2)
            && (a == "MERCASUR CABECERA" ==> ClasificacionActual(t) == t.clasificacion3)
            && (a == "MERCASUR SOTOMAYOR" ==> ClasificacionActual(t) == t.clasificacion5)
            && (a !in UtilsPedido.CAMPO_POR_ALMACEN ==> ClasificacionActual(t).None?)
  {
  }

  // ------------------------------------------------------- The amount

  /** `Replace(importe, ',', '')`. */
  function QuitarComas(s: string): (r: string)
    ensures ',' !in r && |r| <= |s|
  {
    if s == [] then []
    else if s[|s| - 1] == ',' then QuitarComas(s[..|s| - 1])
    else QuitarComas(s[..|s| - 1]) + [s[|s| - 1]]
  }

  lemma {:induction false} QuitarComasUnir(a: string, b: string)
    ensures QuitarComas(a + b) == QuitarComas(a) + QuitarComas(b)
    decreases |b|
  {
    if b != [] {
      var n := |b| - 1;
      assert (a + b)[..|a + b| - 1] == a + b[..n];
      QuitarComasUnir(a, b[..n]);
    } else {
      assert a + b == a;
    }
  }

  /** Text without commas is left as it is. */
  lemma {:induction false} QuitarComasNada(s: string)
    requires ',' !in s
    ensures QuitarComas(s) == s
  {
    if s != [] {
      QuitarComasNada(s[..|s| - 1]);
    }
  }

  /** The longest prefix of decimal digits. */
  function PrefijoDigitos(s: string): (r: string)
    ensures SoloDigitos(r) && |r| <= |s| && r == s[..|r|]
    ensures |r| == |s| || !EsDigito(s[|r|])
  {
    if s == [] || !EsDigito(s[0]) then []
    else [s[0]] + PrefijoDigitos(s[1..])
  }

  function ValorOCero(d: string): nat
    requires SoloDigitos(d)
  {
    if d == [] then 0 else ValorDigitos(d)
  }

  /**
   * SQLite's blanks (`sqlite3Isspace`): space, tab, line feed, vertical tab,
   * form feed and carriage return. Python's `str.strip` removes more
   * (`\x1c` to `\x1f`), which SQLite does not skip.
   */
  predicate EsBlancoSql(c: char)
  {
    c == ' ' || '\t' <= c <= '\r'
  }

  /** The text after its leading SQLite blanks. */
  function SaltarBlancos(s: string): (r: string)
    ensures |r| <= |s| && r == s[|s| - |r|..]
    ensures r == [] || !EsBlancoSql(r[0])
    ensures forall i :: 0 <= i < |s| - |r| ==> EsBlancoSql(s[i])
  {
    if s == [] || !EsBlancoSql(s[0]) then s else SaltarBlancos(s[1..])
  }

  /** Every SQLite blank is also a Python blank; `\x1c` is a Python blank only. */
  lemma BlancosSql(c: char)
    ensures EsBlancoSql(c) ==> EsEspacio(c)
    ensures EsEspacio('\U{001C}') && !EsBlancoSql('\U{001C}')
  {
  }

  /** The digits after a leading point; none without one. */
  function DigitosFraccion(resto: string): (r: string)
    ensures SoloDigitos(r)
    ensures |resto| > 0 && resto[0] == '.' ==> |r| < |resto| && r == resto[1..1 + |r|]
    ensures resto == [] || resto[0] != '.' ==> r == []
  {
    if |resto| > 0 && resto[0] == '.' then PrefijoDigitos(resto[1..]) else []
  }

  /** The exponent after `e` or `E`: an optional sign and digits; 0 when no digit follows. */
  function Exponente(resto: string): (e: int)
    ensures resto == [] || (resto[0] != 'e' && resto[0] != 'E') ==> e == 0
  {
    if |resto| > 0 && (resto[0] == 'e' || resto[0] == 'E') then
      var cuerpo := resto[1..];
      if |cuerpo| > 0 && cuerpo[0] == '-' then -(ValorOCero(PrefijoDigitos(cuerpo[1..])) as int)
      else if |cuerpo| > 0 && cuerpo[0] == '+' then ValorOCero(PrefijoDigitos(cuerpo[1..]))
      else ValorOCero(PrefijoDigitos(cuerpo))
    else 0
  }

  /** `x` times ten to the power `e`, one factor of ten at a time. */
  function Escalar(x: real, e: int): real
    decreases if e >= 0 then e else -e
  {
    if e == 0 then x
    else if e > 0 then 10.0 * Escalar(x, e - 1)
    else Escalar(x, e + 1) / 10.0
  }

  /** Scaling by `e` multiplies by `10^e`, or divides by `10^-e` for a negative `e`. */
  lemma EscalarPot10(x: real, e: int)
    ensures Escalar(x, e) == if e >= 0 then x * Pot10(e) as real else x / Pot10(-e) as real
  {
    if e >= 0 {
      EscalarArriba(x, e);
    } else {
      EscalarAbajo(x, -e);
    }
  }

  lemma {:induction false} EscalarArriba(x: real, k: nat)
    ensures Escalar(x, k) == x * Pot10(k) as real
  {
    if k > 0 {
      EscalarArriba(x, k - 1);
      var p := Pot10(k - 1) as real;
      assert Pot10(k) as real == 10.0 * p;
      MultiplicarPorDiez(x, p);
    }
  }

  lemma {:induction false} EscalarAbajo(x: real, k: nat)
    ensures Escalar(x, -(k as int)) == x / Pot10(k) as real
  {
    if k > 0 {
      EscalarAbajo(x, k - 1);
      var p := Pot10(k - 1) as real;
      assert Pot10(k) as real == 10.0 * p;
      assert Escalar(x, -(k as int)) == Escalar(x, -((k - 1) as int)) / 10.0;
      DividirPorDiez(x, p);
    }
  }

  lemma MultiplicarPorDiez(x: real, p: real)
    ensures 10.0 * (x * p) == x * (10.0 * p)
  {
  }

  lemma DividirPorDiez(x: real, p: real)
    requires p > 0.0
    ensures (x / p) / 10.0 == x / (10.0 * p)
  {
  }

  /** Zero stays zero whatever the exponent. */
  lemma {:induction false} EscalarCero(e: int)
    ensures Escalar(0.0, e) == 0.0
    decreases if e >= 0 then e else -e
  {
    if e > 0 {
      EscalarCero(e - 1);
    } else if e < 0 {
      EscalarCero(e + 1);
    }
  }

  /**
   * The number at the start of `u`: digits, an optional point and digits,
   * then an optional exponent; an `e` with no digit after it is ignored.
   */
  function LeerSinSigno(u: string): real
  {
    var entera := PrefijoDigitos(u);
    var resto := u[|entera|..];
    var decimales := DigitosFraccion(resto);
    var fin := if |resto| > 0 && resto[0] == '.' then 1 + |decimales| else 0;
    var mantisa := ValorOCero(entera) as real + Escalar(ValorOCero(decimales) as real, -|decimales|);
    Escalar(mantisa, Exponente(resto[fin..]))
  }

  /**
   * SQLite's `CAST(text AS REAL)` (`sqlite3AtoF`): leading SQLite blanks
   * skipped, then the longest prefix of the form
   * [sign] digits [. digits] [(e|E) [sign] digits]; no such prefix reads 0.
   */
  function CastReal(s: string): real
  {
    var t := SaltarBlancos(s);
    if |t| > 0 && t[0] == '-' then -LeerSinSigno(t[1..])
    else if |t| > 0 && t[0] == '+' then LeerSinSigno(t[1..])
    else LeerSinSigno(t)
  }

  /** Digits followed by no decimal part read as the digits scaled by the exponent that follows, if any. */
  lemma LeerPartes(d: string, cola: string)
    requires |d| >= 1 && SoloDigitos(d)
    requires cola == [] || (!EsDigito(cola[0]) && cola[0] != '.')
    ensures LeerSinSigno(d + cola) == Escalar(ValorDigitos(d) as real, Exponente(cola))
  {
    var u := d + cola;
    PrefijoDigitosDe(d, cola);
    assert u[|d|..] == cola;
    assert DigitosFraccion(cola) == [];
    assert cola[0..] == cola;
    assert Escalar(ValorOCero([]) as real, 0) == 0.0;
  }

  /** Text starting with a digit is read as it is. */
  lemma CastDesdeDigito(s: string)
    requires |s| > 0 && EsDigito(s[0])
    ensures CastReal(s) == LeerSinSigno(s)
  {
    assert !EsBlancoSql(s[0]);
  }

  /** Digits followed by anything that starts neither a decimal part nor an exponent read as their value. */
  lemma LeerEntero(d: string, resto: string)
    requires |d| >= 1 && SoloDigitos(d)
    requires resto == [] || (!EsDigito(resto[0]) && resto[0] !in ".eE")
    ensures LeerSinSigno(d + resto) == ValorDigitos(d) as real
  {
    LeerPartes(d, resto);
    assert Exponente(resto) == 0;
  }

  /** The digits of a number followed by anything that starts neither a decimal part nor an exponent read as that number. */
  lemma CastNumero(n: nat, resto: string)
    requires resto == [] || (!EsDigito(resto[0]) && resto[0] !in ".eE")
    ensures CastReal(NatATexto(n) + resto) == n as real
  {
    var d := NatATexto(n);
    assert (d + resto)[0] == d[0];
    CastDesdeDigito(d + resto);
    LeerEntero(d, resto);
    ValorNatATexto(n);
  }

  /** The exponent read from `e`, a sign and digits. */
  lemma ExponenteConSigno(e: char, c: char, x: string, resto: string)
    requires |x| >= 1 && SoloDigitos(x)
    requires e == 'e' || e == 'E'
    requires c == '+' || c == '-'
    requires resto == [] || !EsDigito(resto[0])
    ensures Exponente([e] + ([c] + (x + resto))) == if c == '-' then -(ValorDigitos(x) as int) else ValorDigitos(x)
  {
    var cuerpo := [c] + (x + resto);
    var cola := [e] + cuerpo;
    assert cola[1..] == cuerpo && cuerpo[1..] == x + resto;
    PrefijoDigitosDe(x, resto);
    var v := ValorOCero(PrefijoDigitos(x + resto));
    assert v == ValorDigitos(x);
    if c == '-' {
      assert Exponente(cola) == -(v as int);
    } else {
      assert Exponente(cola) == v;
    }
  }

  /** The exponent read from `e` and digits with no sign. */
  lemma ExponenteSinSigno(e: char, x: string, resto: string)
    requires |x| >= 1 && SoloDigitos(x)
    requires e == 'e' || e == 'E'
    requires resto == [] || !EsDigito(resto[0])
    ensures Exponente([e] + (x + resto)) == ValorDigitos(x)
  {
    var cuerpo := x + resto;
    var cola := [e] + cuerpo;
    assert cola[1..] == cuerpo && cuerpo[0] == x[0];
    PrefijoDigitosDe(x, resto);
    var v := ValorOCero(PrefijoDigitos(x + resto));
    assert v == ValorDigitos(x);
    assert Exponente(cola) == v;
  }

  /**
   * Digits, an `e` or `E`, an optional sign and exponent digits read as the
   * digits scaled by that power of ten (`EscalarPot10`), whatever non-digit
   * follows: `5e-05`, which is how Python writes a small float, reads 0.00005.
   */
  lemma CastCientifica(d: string, e: char, signo: string, x: string, resto: string)
    requires |d| >= 1 && SoloDigitos(d) && |x| >= 1 && SoloDigitos(x)
    requires e == 'e' || e == 'E'
    requires signo == "" || signo == "+" || signo == "-"
    requires resto == [] || !EsDigito(resto[0])
    ensures CastReal(d + [e] + signo + x + resto)
            == Escalar(ValorDigitos(d) as real, if signo == "-" then -(ValorDigitos(x) as int) else ValorDigitos(x))
  {
    var cola := [e] + (signo + (x + resto));
    var u := d + cola;
    Asociar(d, [e], signo, x, resto);
    assert u[0] == d[0];
    CastDesdeDigito(u);
    LeerPartes(d, cola);
    var v := ValorDigitos(d) as real;
    var ex := Exponente(cola);
    assert CastReal(u) == Escalar(v, ex);
    var negativo := signo == "-";
    if |signo| == 0 {
      assert signo + (x + resto) == x + resto;
      ExponenteSinSigno(e, x, resto);
      assert !negativo && ex == ValorDigitos(x);
    } else {
      var c := signo[0];
      assert signo == [c];
      ExponenteConSigno(e, c, x, resto);
      assert negativo <==> c == '-';
      assert ex == if negativo then -(ValorDigitos(x) as int) else ValorDigitos(x);
    }
  }

  /** An `e` with no exponent digit after it gives no exponent. */
  lemma ExponenteSinDigitos(e: char, signo: string, resto: string)
    requires e == 'e' || e == 'E'
    requires signo == "" || signo == "+" || signo == "-"
    requires resto == [] || (!EsDigito(resto[0]) && resto[0] != '+' && resto[0] != '-')
    ensures Exponente([e] + (signo + resto)) == 0
  {
    var cuerpo := signo + resto;
    var cola := [e] + cuerpo;
    assert cola[1..] == cuerpo;
    if |signo| == 0 {
      assert cuerpo == resto;
    } else {
      assert cuerpo[1..] == resto;
    }
    assert PrefijoDigitos(resto) == [];
  }

  /** An `e` with no exponent digit after it is not part of the number: `1e` and `1e+` read 1. */
  lemma CastExponenteVacio(d: string, e: char, signo: string, resto: string)
    requires |d| >= 1 && SoloDigitos(d)
    requires e == 'e' || e == 'E'
    requires signo == "" || signo == "+" || signo == "-"
    requires resto == [] || (!EsDigito(resto[0]) && resto[0] != '+' && resto[0] != '-')
    ensures CastReal(d + [e] + signo + resto) == ValorDigitos(d) as real
  {
    var cola := [e] + (signo + resto);
    var u := d + cola;
    Asociar(d, [e], signo, resto, []);
    assert u[0] == d[0];
    CastDesdeDigito(u);
    LeerPartes(d, cola);
    ExponenteSinDigitos(e, signo, resto);
  }

  /** Concatenation read from the right. */
  lemma Asociar(a: string, b: string, c: string, d: string, e: string)
    ensures a + b + c + d + e == a + (b + (c + (d + e)))
    ensures b + c + d + e == b + (c + (d + e))
    ensures a + b + c + d == a + (b + (c + d))
  {
  }

  lemma {:induction false} PrefijoDigitosDe(d: string, resto: string)
    requires SoloDigitos(d)
    requires resto == [] || !EsDigito(resto[0])
    ensures PrefijoDigitos(d + resto) == d
  {
    if d != [] {
      assert (d + resto)[1..] == d[1..] + resto;
      PrefijoDigitosDe(d[1..], resto);
    }
  }

  /** Text that does not start like a number, after SQLite's blanks, reads 0. */
  lemma CastNoNumero(s: string)
    requires |s| > 0 && !EsBlancoSql(s[0]) && !EsDigito(s[0]) && s[0] !in "+-."
    ensures CastReal(s) == 0.0
  {
    assert DigitosFraccion(s) == [] && s[0..] == s;
    assert Escalar(0.0, 0) == 0.0;
    EscalarCero(Exponente(s));
  }

  /**
   * `importe_num`: the amount with its commas removed and cast; a missing
   * amount is NULL.
   */
  function ImporteNum(t: Temporal): (r: Option<real>)
    ensures t.importe.None? <==> r.None?
  {
    match t.importe
    case None => None
    case Some(s) => Some(CastReal(QuitarComas(s)))
  }

  /** An amount written with a thousands comma reads as the whole number. */
  lemma ImporteMiles(t: Temporal, miles: nat, unidades: nat)
    requires unidades < 1000
    requires t.importe == Some(NatATexto(miles) + "," + CerosIzquierda(unidades, 3))
    ensures ImporteNum(t) == Some((miles * 1000 + unidades) as real)
  {
    var a := NatATexto(miles);
    var b := CerosIzquierda(unidades, 3);
    assert Pot10(3) == 1000 by { assert Pot10(2) == 100 && Pot10(1) == 10; }
    CerosIzquierdaExacto(unidades, 3);
    QuitarComasUnir(a + ",", b);
    QuitarComasUnir(a, ",");
    assert QuitarComas(",") == [] by { assert ","[..0] == []; }
    QuitarComasNada(a);
    QuitarComasNada(b);
    ValorUnir(a, b);
    ValorNatATexto(miles);
    var digitos := a + b;
    assert QuitarComas(a + "," + b) == digitos;
    assert SoloDigitos(digitos);
    ValorNatATexto(miles * 1000 + unidades);
    assert ValorDigitos(digitos) == miles * 1000 + unidades;
    CastDigitos(digitos);
  }

  /** A non-empty run of digits reads as its value. */
  lemma CastDigitos(d: string)
    requires |d| >= 1 && SoloDigitos(d)
    ensures CastReal(d) == ValorDigitos(d) as real
  {
    CastDesdeDigito(d);
    LeerEntero(d, []);
    assert d + [] == d;
  }

  /**
   * An amount written in scientific notation, as Python writes a small or a
   * large float (`5e-05`, `1e+16`), reads as its digits scaled by the power of
   * ten: `5e-05` is 0.00005, not 5.
   */
  lemma ImporteCientifico(t: Temporal, d: string, e: char, signo: string, x: string)
    requires |d| >= 1 && SoloDigitos(d) && |x| >= 1 && SoloDigitos(x)
    requires e == 'e' || e == 'E'
    requires signo == "" || signo == "+" || signo == "-"
    requires t.importe == Some(d + [e] + signo + x)
    ensures ImporteNum(t)
            == Some(Escalar(ValorDigitos(d) as real, if signo == "-" then -(ValorDigitos(x) as int) else ValorDigitos(x)))
  {
    var s := d + [e] + signo + x;
    SinComas(d);
    SinComas(x);
    assert ',' !in signo;
    assert ',' !in s;
    QuitarComasNada(s);
    CastCientifica(d, e, signo, x, []);
    assert s + [] == s;
  }

  lemma SinComas(d: string)
    requires SoloDigitos(d)
    ensures ',' !in d
  {
  }

  /**
   * An amount starting with one of `\x1c` to `\x1f`, which Python strips but
   * SQLite does not skip, reads 0, so the row is never selected.
   */
  lemma SeparadorNoSeleccionado(t: Temporal, proceso: int)
    requires t.importe.Some? && |t.importe.value| > 0
    requires '\U{001C}' <= t.importe.value[0] <= '\U{001F}'
    ensures ImporteNum(t) == Some(0.0) && !Seleccionado(t, proceso)
  {
    var s := t.importe.value;
    assert [s[0]] + s[1..] == s;
    QuitarComasUnir([s[0]], s[1..]);
    QuitarComasNada([s[0]]);
    var q := QuitarComas(s);
    assert q[0] == s[0];
    CastNoNumero(q);
  }

  /** The value of two digit strings written one after the other. */
  lemma {:induction false} ValorUnir(a: string, b: string)
    requires |a| >= 1 && SoloDigitos(a) && |b| >= 1 && SoloDigitos(b)
    ensures SoloDigitos(a + b) && ValorDigitos(a + b) == ValorDigitos(a) * Pot10(|b|) + ValorDigitos(b)
    decreases |b|
  {
    var s := a + b;
    forall i | 0 <= i < |s| ensures EsDigito(s[i]) {
      if i < |a| { assert s[i] == a[i]; } else { assert s[i] == b[i - |a|]; }
    }
    var d := b[|b| - 1] as int - '0' as int;
    assert s[|s| - 1] == b[|b| - 1];
    var previo := b[..|b| - 1];
    assert ValorDigitos(s) == ValorDigitos(s[..|s| - 1]) * 10 + d;
    if |b| == 1 {
      assert s[..|s| - 1] == a;
      assert Pot10(1) == 10;
    } else {
      assert s[..|s| - 1] == a + previo;
      ValorUnir(a, previo);
      var va, vp, p := ValorDigitos(a), ValorDigitos(previo), Pot10(|previo|);
      assert ValorDigitos(b) == vp * 10 + d;
      assert Pot10(|b|) == 10 * p;
      Desplazar(va, p, vp, d);
    }
  }

  lemma Desplazar(va: int, p: int, vp: int, d: int)
    ensures (va * p + vp) * 10 + d == va * (10 * p) + (vp * 10 + d)
  {
  }

  // ------------------------------------------------------- Selection
  /** The query's conditions: SQL comparisons, so a NULL amount or class excludes the row. */
  predicate Seleccionado(t: Temporal, proceso: int)
  {
    t.proceso == Some(proceso)
    && t.descat == Some("F")
    && t.departamento.Some? && t.almacen.Some?
    && t.departamento.value !in DEPARTAMENTOS_EXCLUIDOS
    && (t.marca.None? || t.marca.value !in MARCAS_EXCLUIDAS)
    && ImporteNum(t).Some? && ImporteNum(t).value > 0.0
    && ClasificacionActual(t).Some? && ClasificacionActual(t).value !in CLASIFICACION_EXCLUIDAS
  }

  /** A selected article with the annotations the loop reads. */
  datatype Candidato = Candidato(
    codigo: string,
    seccion: Option<string>,
    almacen: string,
    descripcion: string,
    referencia: Option<string>,
    marca: Option<string>,
    clasificacionActual: string,
    importe: real,
    unidades: Option<real>)

  function ACandidato(t: Temporal): Candidato
  {
    Candidato(t.codigo, t.seccion, t.almacen.GetOr(""), t.descripcion, t.referencia, t.marca,
              ClasificacionActual(t).GetOr(""), ImporteNum(t).GetOr(0.0), t.unidades)
  }

  /** `list(qs)`: the selected rows, in table order. */
  function Seleccion(temps: seq<Temporal>, proceso: int): (r: seq<Candidato>)
    ensures |r| <= |temps|
    ensures forall i :: 0 <= i < |r| ==>
              r[i].importe > 0.0 && r[i].clasificacionActual !in CLASIFICACION_EXCLUIDAS
  {
    if temps == [] then []
    else
      var previos := Seleccion(temps[..|temps| - 1], proceso);
      var t := temps[|temps| - 1];
      if Seleccionado(t, proceso) then previos + [ACandidato(t)] else previos
  }

  /** Exactly the rows that meet the conditions are selected. */
  lemma {:induction false} SeleccionExacta(temps: seq<Temporal>, proceso: int, c: Candidato)
    ensures c in Seleccion(temps, proceso) <==>
            exists t :: t in temps && Seleccionado(t, proceso) && ACandidato(t) == c
  {
    if temps != [] {
      var n := |temps| - 1;
      SeleccionExacta(temps[..n], proceso, c);
      assert temps == temps[..n] + [temps[n]];
      if c in Seleccion(temps, proceso) && c !in Seleccion(temps[..n], proceso) {
        assert Seleccionado(temps[n], proceso) && ACandidato(temps[n]) == c;
      }
      if exists t :: t in temps && Seleccionado(t, proceso) && ACandidato(t) == c {
        var t :| t in temps && Seleccionado(t, proceso) && ACandidato(t) == c;
        if t != temps[n] {
          assert t in temps[..n];
        }
      }
    }
  }
}

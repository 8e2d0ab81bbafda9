/**
 * The small helpers of the budget module (`presupuesto/utils.py`): the
 * heat-map class of a compliance percentage, the Colombian money format,
 * and the rebalancing of a month's daily percentages after one day is
 * edited (`ajustar_presupuesto_diario`).
 */
module PresupuestoUtils {
  import opened Resultados
  import opened Decimales
  import opened Textos

  // ------------------------------------------------------------ obtener_clase_semaforo

  /** The band of a compliance percentage: below 90, below 95, below 97, up to 101, above. */
  function NivelSemaforo(p: real): (n: nat)
    ensures 1 <= n <= 5
  {
    if p < 90.0 then 1 else if p < 95.0 then 2 else if p < 97.0 then 3 else if p <= 101.0 then 4 else 5
  }

  /** `obtener_clase_semaforo`: `heatmap-na` without a percentage, else `heatmap-<band>`. */
  function ClaseSemaforo(p: Option<real>): (c: string)
    ensures p.None? ==> c == "heatmap-na"
    ensures p.Some? ==> c == "heatmap-" + [Digito(NivelSemaforo(p.value))]
  {
    if p.None? then "heatmap-na" else "heatmap-" + NatATexto(NivelSemaforo(p.value))
  }

  /** A higher compliance never falls in a lower band. */
  lemma SemaforoMonotono(p: real, q: real)
    requires p <= q
    ensures NivelSemaforo(p) <= NivelSemaforo(q)
  {
  }

  /** Two percentages get the same class exactly when they fall in the same band. */
  lemma SemaforoClases(p: real, q: real)
    ensures ClaseSemaforo(Some(p)) == ClaseSemaforo(Some(q)) <==> NivelSemaforo(p) == NivelSemaforo(q)
  {
    var a := ClaseSemaforo(Some(p));
    var b := ClaseSemaforo(Some(q));
    if a == b {
      assert a[8] == b[8];
    }
  }

  /** Exactly the band from 97 to 101 inclusive is the on-target class. */
  lemma SemaforoEnMeta(p: real)
    ensures NivelSemaforo(p) == 4 <==> 97.0 <= p <= 101.0
  {
  }

  // ------------------------------------------------------------ formato_dinero_colombiano

  /** The digits of `n` with a `.` between groups of three (the `,` grouping after the swap). */
  function Miles(n: nat): (s: string)
    ensures |s| >= 1
    decreases n
  {
    if n < 1000 then NatATexto(n)
    else
      CerosIzquierdaExacto(n % 1000, 3);
      Miles(n / 1000) + "." + CerosIzquierda(n % 1000, 3)
  }

  /** `f"${valor:,.2f}"` with `,` and `.` swapped; `None` (an unconvertible value) gives `-`. */
  function FormatoDinero(v: Option<real>): (s: string)
    ensures v.None? <==> s == "-"
    ensures v.Some? ==> EmpiezaCon(s, "$")
  {
    if v.None? then "-"
    else
      var x := v.value;
      Formato(x < 0.0, Centavos(x))
  }

  /** A sign and a number of hundredths `c`, written as `$`, `-` when negative, `Miles(c / 100)`, `,` and two digits. */
  function Formato(negativo: bool, c: nat): (s: string)
    ensures EmpiezaCon(s, "$")
  {
    "$" + (if negativo then "-" else "") + Cuerpo(c)
  }

  /** The unsigned body of a formatted amount: `Miles(c / 100)`, `,` and two digits. */
  function Cuerpo(c: nat): (s: string)
    ensures |s| >= 4 && s[0] == Miles(c / 100)[0]
  {
    Centesimas(c);
    Miles(c / 100) + "," + CerosIzquierda(c % 100, 2)
  }

  /** The hundredths of an amount, padded to two places, are two digits worth `c % 100`. */
  lemma Centesimas(c: nat)
    ensures var d := CerosIzquierda(c % 100, 2);
            |d| == 2 && SoloDigitos(d) && ValorDigitos(d) == c % 100
  {
    assert Pot10(2) == 100;
    CerosIzquierdaExacto(c % 100, 2);
  }

  /** The hundredths of `|x|`, rounded to nearest with ties to even as the float formatting does. */
  function Centavos(x: real): (c: nat)
    ensures -0.5 <= c as real - (if x < 0.0 then -x else x) * 100.0 <= 0.5
  {
    var a := if x < 0.0 then -x else x;
    MitadPar(a * 100.0)
  }

  function SinPuntos(s: string): (r: string)
    ensures |r| <= |s|
  {
    if s == [] then []
    else SinPuntos(s[..|s| - 1]) + (if s[|s| - 1] == '.' then [] else [s[|s| - 1]])
  }

  /**
   * Reads a formatted amount back: `$`, an optional `-`, digits grouped by
   * `.`, a `,` and two digits. The result is the signed number of hundredths.
   */
  function LeerDinero(s: string): (r: Option<int>)
  {
    if |s| < 2 || s[0] != '$' then None
    else
      var negativo := s[1] == '-';
      var n := LeerCuerpo(s[if negativo then 2 else 1..]);
      if n.None? then None else Some(if negativo then -(n.value as int) else n.value as int)
  }

  /** The value of one decimal digit. */
  function Cifra(c: char): int
  {
    c as int - '0' as int
  }

  /** The unsigned part: digits grouped by `.`, a `,` and two digits, as hundredths. */
  function LeerCuerpo(cuerpo: string): (r: Option<nat>)
  {
    var k := |cuerpo|;
    if k < 4 || cuerpo[k - 3] != ',' then None
    else
      var entero := SinPuntos(cuerpo[..k - 3]);
      if |entero| < 1 || !SoloDigitos(entero) || !EsDigito(cuerpo[k - 2]) || !EsDigito(cuerpo[k - 1]) then None
      else Some(ValorDigitos(entero) * 100 + Cifra(cuerpo[k - 2]) * 10 + Cifra(cuerpo[k - 1]))
  }

  /** The value of a concatenation of digit strings. */
  lemma {:induction false} ValorConcat(a: string, b: string)
    requires |a| >= 1 && SoloDigitos(a) && |b| >= 1 && SoloDigitos(b)
    ensures SoloDigitos(a + b) && ValorDigitos(a + b) == ValorDigitos(a) * Pot10(|b|) + ValorDigitos(b)
    decreases |b|
  {
    var s := a + b;
    var d := b[|b| - 1] as int - '0' as int;
    assert s[|s| - 1] == b[|b| - 1];
    if |b| == 1 {
      assert s[..|s| - 1] == a;
      assert Pot10(1) == 10;
    } else {
      var b0 := b[..|b| - 1];
      assert s[..|s| - 1] == a + b0;
      ValorConcat(a, b0);
      var va, vb0, p0 := ValorDigitos(a), ValorDigitos(b0), Pot10(|b0|);
      assert ValorDigitos(s) == ValorDigitos(a + b0) * 10 + d;
      assert ValorDigitos(b) == vb0 * 10 + d;
      assert Pot10(|b|) == 10 * p0;
      Desplazar(va, p0, vb0, d);
    }
  }

  lemma Desplazar(x: int, y: int, z: int, d: int)
    ensures (x * y + z) * 10 + d == x * (10 * y) + (z * 10 + d)
  {
    assert (x * y) * 10 == x * (10 * y);
  }

  lemma {:induction false} SinPuntosConcat(a: string, b: string)
    ensures SinPuntos(a + b) == SinPuntos(a) + SinPuntos(b)
    decreases |b|
  {
    if b == [] {
      assert a + b == a;
    } else {
      var s := a + b;
      assert s[..|s| - 1] == a + b[..|b| - 1];
      SinPuntosConcat(a, b[..|b| - 1]);
    }
  }

  lemma {:induction false} SinPuntosDigitos(s: string)
    requires SoloDigitos(s)
    ensures SinPuntos(s) == s
    decreases |s|
  {
    if s != [] {
      SinPuntosDigitos(s[..|s| - 1]);
      assert s[..|s| - 1] + [s[|s| - 1]] == s;
    }
  }

  /** Removing the group separators of `Miles(n)` leaves the plain digits of `n`. */
  lemma {:induction false} MilesValor(n: nat)
    ensures |SinPuntos(Miles(n))| >= 1 && SoloDigitos(SinPuntos(Miles(n)))
    ensures ValorDigitos(SinPuntos(Miles(n))) == n
    decreases n
  {
    if n < 1000 {
      SinPuntosDigitos(NatATexto(n));
      ValorNatATexto(n);
    } else {
      MilesValor(n / 1000);
      SinPuntosMiles(n);
      var alto := SinPuntos(Miles(n / 1000));
      var bajo := CerosIzquierda(n % 1000, 3);
      CerosIzquierdaExacto(n % 1000, 3);
      ValorConcat(alto, bajo);
      assert Pot10(3) == 1000;
      Recomponer(n, 1000, ValorDigitos(alto), ValorDigitos(bajo));
    }
  }

  /** Above 999, removing the separators of `Miles(n)` joins the higher groups and the three low digits. */
  lemma SinPuntosMiles(n: nat)
    requires n >= 1000
    ensures SinPuntos(Miles(n)) == SinPuntos(Miles(n / 1000)) + CerosIzquierda(n % 1000, 3)
  {
    var alto := Miles(n / 1000);
    var bajo := CerosIzquierda(n % 1000, 3);
    assert Pot10(3) == 1000;
    CerosIzquierdaExacto(n % 1000, 3);
    assert Miles(n) == alto + "." + bajo;
    SinPuntosPunto(alto, bajo);
    SinPuntosDigitos(bajo);
  }

  /** A separator between two strings disappears. */
  lemma SinPuntosPunto(a: string, b: string)
    ensures SinPuntos(a + "." + b) == SinPuntos(a) + SinPuntos(b)
  {
    SinPuntosConcat(a + ".", b);
    SinPuntosConcat(a, ".");
    assert SinPuntos(".") == [] by {
      assert "."[..0] == [];
    }
  }

  /** Reading the formatted amount gives back its signed hundredths: nothing is lost by the format. */
  lemma FormatoDineroLeido(x: real)
    ensures LeerDinero(FormatoDinero(Some(x))) == Some(if x < 0.0 then -(Centavos(x) as int) else Centavos(x))
  {
    FormatoLeido(x < 0.0, Centavos(x));
  }

  lemma FormatoLeido(negativo: bool, c: nat)
    ensures LeerDinero(Formato(negativo, c)) == Some(if negativo then -(c as int) else c)
  {
    CuerpoLeido(c);
    SignoDe(negativo, c, LeerCuerpo(Cuerpo(c)));
    FormatoSigno(negativo, c);
  }

  /** The sign applied to a body that reads as `c`. */
  lemma SignoDe(negativo: bool, c: nat, n: Option<nat>)
    requires n == Some(c)
    ensures (if n.None? then None else Some(if negativo then -(n.value as int) else n.value as int))
            == Some(if negativo then -(c as int) else c)
  {
  }

  /** `Formato` puts the sign between the `$` and the grouped body. */
  lemma FormatoSigno(negativo: bool, c: nat)
    ensures var n := LeerCuerpo(Cuerpo(c));
            LeerDinero(Formato(negativo, c))
            == if n.None? then None else Some(if negativo then -(n.value as int) else n.value as int)
  {
    var k := Cuerpo(c);
    assert Formato(negativo, c) == "$" + (if negativo then "-" else "") + k;
    MilesSinSigno(c / 100);
    assert k[0] != '-';
    LeerSigno(negativo, k);
  }

  /** The body of a formatted amount reads back as its hundredths. */
  lemma CuerpoLeido(c: nat)
    ensures LeerCuerpo(Cuerpo(c)) == Some(c)
  {
    var m := Miles(c / 100);
    var d := CerosIzquierda(c % 100, 2);
    Centesimas(c);
    MilesValor(c / 100);
    LeidoDePartes(Cuerpo(c), m, d, c);
  }

  /** A body made of a grouped part worth `c / 100`, a `,` and two digits worth `c % 100` reads as `c`. */
  lemma LeidoDePartes(k: string, m: string, d: string, c: nat)
    requires k == m + "," + d
    requires |m| >= 1 && |SinPuntos(m)| >= 1 && SoloDigitos(SinPuntos(m)) && ValorDigitos(SinPuntos(m)) == c / 100
    requires |d| == 2 && SoloDigitos(d) && ValorDigitos(d) == c % 100
    ensures LeerCuerpo(k) == Some(c)
  {
    LeerPartes(m, d);
    Recomponer(c, 100, ValorDigitos(SinPuntos(m)), ValorDigitos(d));
  }

  /** A number is its quotient times the base plus its remainder. */
  lemma Recomponer(c: nat, base: nat, alto: int, bajo: int)
    requires base > 0 && alto == c / base && bajo == c % base
    ensures alto * base + bajo == c
  {
  }

  /** `LeerCuerpo` on a grouped integer part, a `,` and two decimal digits. */
  lemma LeerPartes(m: string, d: string)
    requires |m| >= 1 && |SinPuntos(m)| >= 1 && SoloDigitos(SinPuntos(m))
    requires |d| == 2 && SoloDigitos(d)
    ensures LeerCuerpo(m + "," + d) == Some(ValorDigitos(SinPuntos(m)) * 100 + ValorDigitos(d))
  {
    var cuerpo := m + "," + d;
    var k := |cuerpo|;
    assert cuerpo[..k - 3] == m;
    assert cuerpo[k - 3] == ',' && cuerpo[k - 2] == d[0] && cuerpo[k - 1] == d[1];
    DosCifras(d);
  }

  /** Two decimal digits are worth ten times the first plus the second. */
  lemma DosCifras(d: string)
    requires |d| == 2 && SoloDigitos(d)
    ensures ValorDigitos(d) == Cifra(d[0]) * 10 + Cifra(d[1])
  {
    assert d[..1] == [d[0]];
  }

  /** `LeerDinero` strips the `$` and the sign, and reads the rest with `LeerCuerpo`. */
  lemma LeerSigno(negativo: bool, cuerpo: string)
    requires |cuerpo| >= 1 && cuerpo[0] != '-'
    ensures var n := LeerCuerpo(cuerpo);
            LeerDinero("$" + (if negativo then "-" else "") + cuerpo)
            == if n.None? then None else Some(if negativo then -(n.value as int) else n.value as int)
  {
    var s := "$" + (if negativo then "-" else "") + cuerpo;
    if negativo {
      assert s[2..] == cuerpo;
    } else {
      assert s[1] == cuerpo[0];
      assert s[1..] == cuerpo;
    }
  }

  lemma {:induction false} MilesSinSigno(n: nat)
    ensures Miles(n)[0] != '-'
    decreases n
  {
    if n >= 1000 {
      MilesSinSigno(n / 1000);
    }
  }

  // ------------------------------------------------------------ ajustar_presupuesto_diario

  /** A computed day of a monthly category budget: its date (as a day number), percentage and value. */
  datatype DiaCalculado = DiaCalculado(fecha: int, porcentaje: real, presupuesto: real)

  function Suma(ps: seq<real>): real
  {
    if ps == [] then 0.0 else Suma(ps[..|ps| - 1]) + ps[|ps| - 1]
  }

  lemma {:induction false} SumaActualizar(ps: seq<real>, k: nat, v: real)
    requires k < |ps|
    ensures Suma(ps[k := v]) == Suma(ps) - ps[k] + v
    decreases |ps|
  {
    var n := |ps| - 1;
    if k < n {
      assert ps[k := v][..n] == ps[..n][k := v];
      SumaActualizar(ps[..n], k, v);
    } else {
      assert ps[k := v][..n] == ps[..n];
    }
  }

  function Porcentajes(dias: seq<DiaCalculado>): (ps: seq<real>)
    ensures |ps| == |dias| && forall i :: 0 <= i < |dias| ==> ps[i] == dias[i].porcentaje
  {
    seq(|dias|, i requires 0 <= i < |dias| => dias[i].porcentaje)
  }

  /** `next(d for d in dias if d.fecha == dia_modificado)`, by position. */
  function PrimeroEn(dias: seq<DiaCalculado>, fecha: int): (r: Option<nat>)
    ensures r.Some? ==> r.value < |dias| && dias[r.value].fecha == fecha
                        && forall j :: 0 <= j < r.value ==> dias[j].fecha != fecha
    ensures r.None? ==> forall j :: 0 <= j < |dias| ==> dias[j].fecha != fecha
  {
    if dias == [] then None
    else if dias[0].fecha == fecha then Some(0)
    else
      var r := PrimeroEn(dias[1..], fecha);
      if r.None? then None else Some(r.value + 1)
  }

  /** `sum(d.porcentaje_dia_especifico for d in otros_dias)`. */
  function SumaOtros(dias: seq<DiaCalculado>, fecha: int): real
  {
    if dias == [] then 0.0
    else
      var d := dias[|dias| - 1];
      SumaOtros(dias[..|dias| - 1], fecha) + (if d.fecha != fecha then d.porcentaje else 0.0)
  }

  function CuentaOtros(dias: seq<DiaCalculado>, fecha: int): nat
  {
    if dias == [] then 0 else CuentaOtros(dias[..|dias| - 1], fecha) + (if dias[|dias| - 1].fecha != fecha then 1 else 0)
  }

  /** The new percentage of a day other than the edited one: an even share when all others were 0, else a proportional one. */
  function Reparto(p: real, restante: real, suma: real, cuantos: nat): real
  {
    if suma == 0.0 then (if cuantos == 0 then p else Redondear2(restante / cuantos as real))
    else Redondear2(restante * (p / suma))
  }

  /** The percentages after the loop over `otros_dias`: each day of another date gets its share, the rest keep theirs. */
  function Reasignados(dias: seq<DiaCalculado>, fecha: int, restante: real, suma: real, cuantos: nat): (ps: seq<real>)
    ensures |ps| == |dias|
  {
    seq(|dias|, i requires 0 <= i < |dias| =>
      if dias[i].fecha != fecha then Reparto(dias[i].porcentaje, restante, suma, cuantos) else dias[i].porcentaje)
  }

  /** The percentages once the others are rescaled and the edited day (position `m`) takes the new one. */
  function Repartidos(dias: seq<DiaCalculado>, fecha: int, m: nat, nuevo: real): (ps: seq<real>)
    requires m < |dias|
    ensures |ps| == |dias|
  {
    Reasignados(dias, fecha, 100.0 - nuevo, SumaOtros(dias, fecha), CuentaOtros(dias, fecha))[m := nuevo]
  }

  /** Where the rounding residual goes: the first day that is not the edited one, or the only day. */
  function Receptor(n: nat, m: nat): (k: nat)
    requires m < n
    ensures k < n && (n > 1 ==> k != m)
  {
    if n == 1 || m != 0 then 0 else 1
  }

  /** `abs(diferencia) >= Decimal("0.01")`. */
  predicate Residual(d: real)
  {
    d >= 0.01 || d <= -0.01
  }

  /** The final percentages: the residual to 100 is added to the receiving day when it is at least 0.01 in size. */
  function PorcentajesFinales(ps: seq<real>, m: nat): (r: seq<real>)
    requires m < |ps|
    ensures |r| == |ps|
  {
    var diferencia := 100.0 - Suma(ps);
    var k := Receptor(|ps|, m);
    if Residual(diferencia) then ps[k := ps[k] + diferencia] else ps
  }

  /** A day's value: the monthly budget times its percentage over 100, rounded half up. */
  function ValorDia(mensual: real, p: real): (v: real)
    ensures Centesimal(v) && -0.005 <= v - mensual * p / 100.0 <= 0.005
  {
    Redondear2(mensual * p / 100.0)
  }

  /** The days with their new percentages and values. */
  function ConValores(dias: seq<DiaCalculado>, ps: seq<real>, mensual: real): (r: seq<DiaCalculado>)
    requires |ps| == |dias|
    ensures |r| == |dias|
  {
    seq(|dias|, i requires 0 <= i < |dias| =>
      DiaCalculado(dias[i].fecha, ps[i], ValorDia(mensual, ps[i])))
  }

  /** What `ajustar_presupuesto_diario` answers and leaves stored. */
  datatype Ajuste = Ajuste(exito: bool, mensaje: string, dias: seq<DiaCalculado>)

  function AjusteEsperado(dias: seq<DiaCalculado>, fecha: int, porcentaje: real, mensual: real): Ajuste
  {
    if dias == [] then Ajuste(false, "No hay días para ajustar.", dias)
    else
      var m := PrimeroEn(dias, fecha);
      if m.None? then Ajuste(false, "No se encontró el día modificado.", dias)
      else
        var nuevo := Redondear2(porcentaje);
        if 100.0 - nuevo < 0.0 then Ajuste(false, "El porcentaje asignado excede el 100%.", dias)
        else
          var ps := PorcentajesFinales(Repartidos(dias, fecha, m.value, nuevo), m.value);
          Ajuste(true, "Presupuesto diario ajustado correctamente.", ConValores(dias, ps, mensual))
  }

  /** The loop over `otros_dias` that gives each of them its share of what remains. */
  method ReasignarOtros(dias: seq<DiaCalculado>, fecha: int, restante: real, suma: real, cuantos: nat)
    returns (ps: seq<real>)
    ensures ps == Reasignados(dias, fecha, restante, suma, cuantos)
  {
    ghost var esperados := Reasignados(dias, fecha, restante, suma, cuantos);
    ps := Porcentajes(dias);
    var i := 0;
    while i < |dias|
      invariant 0 <= i <= |dias| && |ps| == |dias|
      invariant forall j :: 0 <= j < i ==> ps[j] == esperados[j]
      invariant forall j :: i <= j < |dias| ==> ps[j] == dias[j].porcentaje
    {
      if dias[i].fecha != fecha {
        ps := ps[i := Reparto(dias[i].porcentaje, restante, suma, cuantos)];
      }
      i := i + 1;
    }
  }

  /** The final correction: the first day other than the edited one (or the only day) absorbs the residual. */
  method AjustarResiduo(ps: seq<real>, mod: nat) returns (r: seq<real>)
    requires mod < |ps|
    ensures r == PorcentajesFinales(ps, mod)
  {
    r := ps;
    var diferencia := 100.0 - Suma(ps);
    if diferencia >= 0.01 || diferencia <= -0.01 {
      var i := 0;
      while i < |r|
        invariant 0 <= i <= Receptor(|ps|, mod) && r == ps
        decreases |r| - i
      {
        if i != mod || |r| == 1 {
          r := r[i := r[i] + diferencia];
          break;
        }
        i := i + 1;
      }
    }
  }

  /** The loop that recomputes and saves each day's value. */
  method RecalcularValores(dias: seq<DiaCalculado>, ps: seq<real>, mensual: real) returns (finales: seq<DiaCalculado>)
    requires |ps| == |dias|
    ensures finales == ConValores(dias, ps, mensual)
  {
    ghost var esperados := ConValores(dias, ps, mensual);
    finales := [];
    var i := 0;
    while i < |dias|
      invariant 0 <= i <= |dias| && finales == esperados[..i]
    {
      assert esperados[..i + 1] == esperados[..i] + [esperados[i]];
      finales := finales + [DiaCalculado(dias[i].fecha, ps[i], ValorDia(mensual, ps[i]))];
      i := i + 1;
    }
    assert esperados[..|dias|] == esperados;
  }

  /**
   * `ajustar_presupuesto_diario(presupuesto_mensual_obj, dia_modificado, nuevo_porcentaje)`
   * over the month's days in date order; the monthly budget is the object's
   * `presupuesto_total_categoria`.
   */
  method AjustarPresupuestoDiario(dias: seq<DiaCalculado>, fecha: int, porcentaje: real, mensual: real)
    returns (r: Ajuste)
    ensures r == AjusteEsperado(dias, fecha, porcentaje, mensual)
  {
    if |dias| == 0 {
      return Ajuste(false, "No hay días para ajustar.", dias);
    }
    var m := PrimeroEn(dias, fecha);
    if m.None? {
      return Ajuste(false, "No se encontró el día modificado.", dias);
    }
    var mod := m.value;
    var nuevo := Redondear2(porcentaje);
    var restante := 100.0 - nuevo;
    if restante < 0.0 {
      return Ajuste(false, "El porcentaje asignado excede el 100%.", dias);
    }
    var ps := ReasignarOtros(dias, fecha, restante, SumaOtros(dias, fecha), CuentaOtros(dias, fecha));
    ps := ps[mod := nuevo];
    ps := AjustarResiduo(ps, mod);
    var finales := RecalcularValores(dias, ps, mensual);
    r := Ajuste(true, "Presupuesto diario ajustado correctamente.", finales);
  }

  // ------------------------------------------------------------ properties of the adjustment

  /** The adjustment succeeds exactly when some day has the edited date and the new percentage, rounded, is at most 100; a failure changes no day. */
  lemma AjusteExito(dias: seq<DiaCalculado>, fecha: int, porcentaje: real, mensual: real)
    ensures var r := AjusteEsperado(dias, fecha, porcentaje, mensual);
            (r.exito <==> (exists j :: 0 <= j < |dias| && dias[j].fecha == fecha) && Redondear2(porcentaje) <= 100.0)
            && (!r.exito ==> r.dias == dias)
            && (dias == [] ==> r.mensaje == "No hay días para ajustar.")
  {
    var m := PrimeroEn(dias, fecha);
    if m.Some? {
      assert dias[m.value].fecha == fecha;
    }
  }

  /** A successful adjustment keeps every day's date and recomputes every value from the new percentage. */
  lemma AjusteValores(dias: seq<DiaCalculado>, fecha: int, porcentaje: real, mensual: real)
    ensures var r := AjusteEsperado(dias, fecha, porcentaje, mensual);
            r.exito ==> |r.dias| == |dias|
                        && forall i :: 0 <= i < |dias| ==>
                             r.dias[i].fecha == dias[i].fecha && r.dias[i].presupuesto == ValorDia(mensual, r.dias[i].porcentaje)
  {
  }

  /** A sum of whole hundredths is a whole number of hundredths. */
  lemma {:induction false} SumaCentesimales(ps: seq<real>)
    requires forall i :: 0 <= i < |ps| ==> Centesimal(ps[i])
    ensures Centesimal(Suma(ps))
    decreases |ps|
  {
    if ps == [] {
      CentesimalEntero(0);
    } else {
      SumaCentesimales(ps[..|ps| - 1]);
      SumaCentesimal(Suma(ps[..|ps| - 1]), ps[|ps| - 1]);
    }
  }

  /** The only whole number of hundredths smaller than 0.01 in size is 0. */
  lemma CentesimalPequeno(x: real)
    requires Centesimal(x) && -0.01 < x < 0.01
    ensures x == 0.0
  {
    var k := (x * 100.0).Floor;
    assert k as real == x * 100.0;
  }

  /** The rescaled percentages are whole hundredths when the stored ones are. */
  lemma RepartidosCentesimales(dias: seq<DiaCalculado>, fecha: int, m: nat, nuevo: real)
    requires m < |dias| && Centesimal(nuevo)
    requires forall i :: 0 <= i < |dias| ==> Centesimal(dias[i].porcentaje)
    ensures var ps := Repartidos(dias, fecha, m, nuevo);
            forall i :: 0 <= i < |ps| ==> Centesimal(ps[i])
  {
  }

  /** After the residual step, whole-hundredth percentages add up to exactly 100. */
  lemma FinalesSumanCien(ps: seq<real>, m: nat)
    requires m < |ps| && forall i :: 0 <= i < |ps| ==> Centesimal(ps[i])
    ensures Suma(PorcentajesFinales(ps, m)) == 100.0
  {
    var diferencia := 100.0 - Suma(ps);
    var k := Receptor(|ps|, m);
    if Residual(diferencia) {
      SumaActualizar(ps, k, ps[k] + diferencia);
    } else {
      SumaCentesimales(ps);
      CentesimalEntero(10000);
      SumaCentesimal(100.0, Suma(ps));
      CentesimalPequeno(diferencia);
    }
  }

  /** The stored percentages of the recomputed days are the final percentages. */
  lemma PorcentajesConValores(dias: seq<DiaCalculado>, ps: seq<real>, mensual: real)
    requires |ps| == |dias|
    ensures Porcentajes(ConValores(dias, ps, mensual)) == ps
  {
  }

  /** With whole-hundredth percentages stored, a successful adjustment leaves them adding up to exactly 100.00. */
  lemma AjusteSumaCien(dias: seq<DiaCalculado>, fecha: int, porcentaje: real, mensual: real)
    requires forall i :: 0 <= i < |dias| ==> Centesimal(dias[i].porcentaje)
    ensures var r := AjusteEsperado(dias, fecha, porcentaje, mensual);
            r.exito ==> Suma(Porcentajes(r.dias)) == 100.0
  {
    var r := AjusteEsperado(dias, fecha, porcentaje, mensual);
    if r.exito {
      var m := PrimeroEn(dias, fecha).value;
      var nuevo := Redondear2(porcentaje);
      var ps := Repartidos(dias, fecha, m, nuevo);
      RepartidosCentesimales(dias, fecha, m, nuevo);
      FinalesSumanCien(ps, m);
      PorcentajesConValores(dias, PorcentajesFinales(ps, m), mensual);
    }
  }

  /** With more than one day, the edited day keeps exactly the new percentage, rounded to hundredths. */
  lemma AjusteDiaEditado(dias: seq<DiaCalculado>, fecha: int, porcentaje: real, mensual: real)
    requires |dias| > 1
    ensures var r := AjusteEsperado(dias, fecha, porcentaje, mensual);
            var m := PrimeroEn(dias, fecha);
            r.exito ==> m.Some? && r.dias[m.value].porcentaje == Redondear2(porcentaje)
  {
  }

  /** A month of a single day always ends at 100.00 %, whatever percentage was asked for. */
  lemma AjusteDiaUnico(dia: DiaCalculado, porcentaje: real, mensual: real)
    ensures var r := AjusteEsperado([dia], dia.fecha, porcentaje, mensual);
            r.exito <==> Redondear2(porcentaje) <= 100.0
    ensures var r := AjusteEsperado([dia], dia.fecha, porcentaje, mensual);
            r.exito ==> r.dias == [DiaCalculado(dia.fecha, 100.0, ValorDia(mensual, 100.0))]
  {
    var r := AjusteEsperado([dia], dia.fecha, porcentaje, mensual);
    if r.exito {
      var nuevo := Redondear2(porcentaje);
      var ps := Repartidos([dia], dia.fecha, 0, nuevo);
      assert ps == [nuevo];
      FinalesSumanCien(ps, 0);
      var f := PorcentajesFinales(ps, 0);
      assert f[..0] == [];
      assert Suma(f) == f[0];
    }
  }

  /**
   * Every other day that does not absorb the residual ends at its share of what
   * remains (see `RepartoCerca` for what the share is).
   */
  lemma AjusteReparto(dias: seq<DiaCalculado>, fecha: int, porcentaje: real, mensual: real, i: nat)
    requires i < |dias| && dias[i].fecha != fecha
    ensures var r := AjusteEsperado(dias, fecha, porcentaje, mensual);
            var m := PrimeroEn(dias, fecha);
            r.exito && m.Some? && i != Receptor(|dias|, m.value) ==>
              i < |r.dias| && CuentaOtros(dias, fecha) >= 1
              && r.dias[i].porcentaje
                 == Reparto(dias[i].porcentaje, 100.0 - Redondear2(porcentaje), SumaOtros(dias, fecha), CuentaOtros(dias, fecha))
  {
    var r := AjusteEsperado(dias, fecha, porcentaje, mensual);
    var m := PrimeroEn(dias, fecha);
    CuentaAlguno(dias, fecha, i);
    if r.exito && m.Some? && i != Receptor(|dias|, m.value) {
      RepartoEnPosicion(dias, fecha, m.value, Redondear2(porcentaje), i);
    }
  }

  /**
   * A share is whole hundredths: within half a hundredth of the part of what
   * remains proportional to the old percentage, or, when the others added up
   * to 0, the even share.
   */
  lemma RepartoCerca(p: real, restante: real, suma: real, cuantos: nat)
    requires cuantos >= 1
    ensures var v := Reparto(p, restante, suma, cuantos);
            Centesimal(v)
            && (suma != 0.0 ==> -0.005 <= v - restante * (p / suma) <= 0.005)
            && (suma == 0.0 ==> v == Redondear2(restante / cuantos as real))
  {
  }

  /** The final percentage of a rescaled day that does not absorb the residual is its share. */
  lemma RepartoEnPosicion(dias: seq<DiaCalculado>, fecha: int, m: nat, nuevo: real, i: nat)
    requires m < |dias| && i < |dias| && dias[i].fecha != fecha && dias[m].fecha == fecha && i != Receptor(|dias|, m)
    ensures PorcentajesFinales(Repartidos(dias, fecha, m, nuevo), m)[i]
            == Reparto(dias[i].porcentaje, 100.0 - nuevo, SumaOtros(dias, fecha), CuentaOtros(dias, fecha))
  {
  }

  /** A day of another date makes `otros_dias` non-empty. */
  lemma {:induction false} CuentaAlguno(dias: seq<DiaCalculado>, fecha: int, i: nat)
    requires i < |dias| && dias[i].fecha != fecha
    ensures CuentaOtros(dias, fecha) >= 1
    decreases |dias|
  {
    if i < |dias| - 1 {
      CuentaAlguno(dias[..|dias| - 1], fecha, i);
    }
  }

  /** Other days with the edited date are not rescaled: they keep their percentage unless they absorb the residual. */
  lemma AjusteMismaFecha(dias: seq<DiaCalculado>, fecha: int, porcentaje: real, mensual: real, i: nat)
    requires i < |dias| && dias[i].fecha == fecha
    ensures var r := AjusteEsperado(dias, fecha, porcentaje, mensual);
            var m := PrimeroEn(dias, fecha);
            r.exito && i != m.value && i != Receptor(|dias|, m.value) ==> r.dias[i].porcentaje == dias[i].porcentaje
  {
  }
}

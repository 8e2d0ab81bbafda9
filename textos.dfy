/**
 * The few string operations of Python that the back office relies on, over
 * ASCII: `strip`, `upper`, `lower`, `split`, `join`, `str(int)` and `int(str)`.
 */
module Textos {
  import opened Resultados
  import opened Decimales

  /**
   * The ASCII characters removed by `str.strip()`: the blank, tab, line
   * feed, carriage return, vertical tab and form feed, and the four
   * separators U+001C to U+001F, which Python also counts as whitespace.
   */
  predicate EsEspacio(c: char)
  {
    c == ' ' || c == '\t' || c == '\n' || c == '\r' || c == '\U{000B}' || c == '\U{000C}'
    || c == '\U{001C}' || c == '\U{001D}' || c == '\U{001E}' || c == '\U{001F}'
  }

  function QuitarIzquierda(s: string): (r: string)
    ensures |r| <= |s| && r == s[|s| - |r|..]
    ensures r == [] || !EsEspacio(r[0])
    ensures forall i :: 0 <= i < |s| - |r| ==> EsEspacio(s[i])
  {
    if s == [] || !EsEspacio(s[0]) then s else QuitarIzquierda(s[1..])
  }

  function QuitarDerecha(s: string): (r: string)
    ensures |r| <= |s| && r == s[..|r|]
    ensures r == [] || !EsEspacio(r[|r| - 1])
    ensures forall i :: |r| <= i < |s| ==> EsEspacio(s[i])
  {
    if s == [] || !EsEspacio(s[|s| - 1]) then s else QuitarDerecha(s[..|s| - 1])
  }

  /** `s.strip()`: no whitespace is left at either end. */
  function Strip(s: string): (r: string)
    ensures |r| <= |s|
    ensures r != [] ==> !EsEspacio(r[0]) && !EsEspacio(r[|r| - 1])
  {
    QuitarIzquierda(QuitarDerecha(s))
  }

  /** A string whose ends are not whitespace is its own `strip()`. */
  lemma StripSinBordes(s: string)
    requires s != [] ==> !EsEspacio(s[0]) && !EsEspacio(s[|s| - 1])
    ensures Strip(s) == s
  {
  }

  lemma StripIdempotente(s: string)
    ensures Strip(Strip(s)) == Strip(s)
  {
    StripSinBordes(Strip(s));
  }

  lemma {:induction false} QuitarDerechaBlanco(e: string)
    ensures QuitarDerecha([' '] + e) == if QuitarDerecha(e) == [] then [] else [' '] + QuitarDerecha(e)
    decreases |e|
  {
    var s := [' '] + e;
    if e == [] {
      assert s[..0] == [];
    } else if !EsEspacio(e[|e| - 1]) {
      assert s[|s| - 1] == e[|e| - 1];
    } else {
      assert s[..|s| - 1] == [' '] + e[..|e| - 1];
      QuitarDerechaBlanco(e[..|e| - 1]);
    }
  }

  /** A leading blank makes no difference to `strip()`. */
  lemma StripBlancoInicial(e: string)
    ensures Strip([' '] + e) == Strip(e)
  {
    QuitarDerechaBlanco(e);
    var d := QuitarDerecha(e);
    if d != [] {
      assert ([' '] + d)[1..] == d;
    }
  }

  function MayusculaChar(c: char): char
  {
    if 'a' <= c <= 'z' then (c as int - 32) as char else c
  }

  function MinusculaChar(c: char): char
  {
    if 'A' <= c <= 'Z' then (c as int + 32) as char else c
  }

  /** `s.upper()` on ASCII letters. */
  function Upper(s: string): (r: string)
    ensures |r| == |s| && forall i :: 0 <= i < |s| ==> r[i] == MayusculaChar(s[i])
  {
    seq(|s|, i requires 0 <= i < |s| => MayusculaChar(s[i]))
  }

  lemma UpperIdempotente(s: string)
    ensures Upper(Upper(s)) == Upper(s)
  {
    assert forall i :: 0 <= i < |s| ==> Upper(Upper(s))[i] == Upper(s)[i];
  }

  /** `s.lower()` on ASCII letters. */
  function Lower(s: string): (r: string)
    ensures |r| == |s| && forall i :: 0 <= i < |s| ==> r[i] == MinusculaChar(s[i])
  {
    seq(|s|, i requires 0 <= i < |s| => MinusculaChar(s[i]))
  }

  /** `sep.join(partes)`. */
  function Join(partes: seq<string>, sep: string): (r: string)
  {
    if partes == [] then ""
    else if |partes| == 1 then partes[0]
    else partes[0] + sep + Join(partes[1..], sep)
  }

  /** `s.split(sep)` for a one-character separator: never empty, pieces free of `sep`. */
  function Split(s: string, sep: char): (r: seq<string>)
    ensures |r| >= 1
    ensures forall i :: 0 <= i < |r| ==> sep !in r[i]
    decreases |s|
  {
    if s == [] then [""]
    else
      var resto := Split(s[1..], sep);
      if s[0] == sep then [""] + resto
      else [[s[0]] + resto[0]] + resto[1..]
  }
  lemma {:induction false} SplitSinSeparador(s: string, sep: char)
    requires sep !in s
    ensures Split(s, sep) == [s]
    decreases |s|
  {
    if s != [] {
      SplitSinSeparador(s[1..], sep);
      assert [s[0]] + s[1..] == s;
    }
  }

  /** A separator followed by `y`: the split ends with the pieces of `y`. */
  lemma {:induction false} SplitCola(x: string, sep: char, y: string)
    ensures var p := Split(x + [sep] + y, sep);
            var q := Split(y, sep);
            |p| >= 2 && p[|p| - 1] == q[|q| - 1]
    decreases |x|
  {
    var s := x + [sep] + y;
    if x == [] {
      assert s[1..] == y;
    } else {
      assert s[1..] == x[1..] + [sep] + y;
      SplitCola(x[1..], sep, y);
    }
  }

  /** Digits contain none of the separators the handlers split on. */
  lemma SinPunto(s: string)
    requires SoloDigitos(s)
    ensures '.' !in s && '_' !in s && '-' !in s
  {
    assert forall i :: 0 <= i < |s| ==> EsDigito(s[i]);
  }

  lemma {:induction false} SplitConcat(x: string, sep: char, y: string)
    requires sep !in x
    ensures Split(x + [sep] + y, sep) == [x] + Split(y, sep)
    decreases |x|
  {
    var s := x + [sep] + y;
    if x == [] {
      assert s[1..] == y;
    } else {
      assert s[1..] == x[1..] + [sep] + y;
      SplitConcat(x[1..], sep, y);
      assert [x[0]] + x[1..] == x;
    }
  }


  /** Joining the pieces of a split with the same separator gives the string back. */
  lemma {:induction false} JoinSplit(s: string, sep: char)
    ensures Join(Split(s, sep), [sep]) == s
    decreases |s|
  {
    if s != [] {
      JoinSplit(s[1..], sep);
      var resto := Split(s[1..], sep);
      if s[0] == sep {
        assert Split(s, sep) == [""] + resto;
        assert Join([""] + resto, [sep]) == "" + [sep] + Join(resto, [sep]);
      } else {
        JoinCabeza(s[0], resto, [sep]);
      }
    }
  }

  lemma JoinCabeza(c: char, partes: seq<string>, sep: string)
    requires |partes| >= 1
    ensures Join([[c] + partes[0]] + partes[1..], sep) == [c] + Join(partes, sep)
  {
    var nuevas := [[c] + partes[0]] + partes[1..];
    assert nuevas[1..] == partes[1..];
  }

  /** `[p.strip() for p in s.split(sep)]`: one stripped piece per piece of the split. */
  function Piezas(s: string, sep: char): (r: seq<string>)
    ensures |r| == |Split(s, sep)| && |r| >= 1
    ensures forall i :: 0 <= i < |r| ==> r[i] == Strip(Split(s, sep)[i]) && sep !in r[i]
  {
    var p := Split(s, sep);
    seq(|p|, i requires 0 <= i < |p| => Strip(p[i]))
  }

  /** Every member of `Piezas` is stripped and free of the separator. */
  lemma PiezaMiembroLimpia(s: string, sep: char, e: string)
    requires e in Piezas(s, sep)
    ensures sep !in e && Strip(e) == e
  {
    var ps := Piezas(s, sep);
    var i :| 0 <= i < |ps| && ps[i] == e;
    PiezaLimpia(s, sep, i);
  }

  /** The middle parts of a concatenation of four strings, read back by position. */
  lemma Trozos(a: string, b: string, c: string, d: string)
    ensures var m := a + b + c + d;
            m[|a|..|a| + |b|] == b && m[|a| + |b|..|a| + |b| + |c|] == c
  {
    var m := a + b + c + d;
    assert m == a + (b + (c + d));
    assert (b + (c + d))[..|b|] == b;
    assert (c + d)[..|c|] == c;
  }

  /** A piece of `Piezas` is its own `strip()` and holds no separator. */
  lemma PiezaLimpia(s: string, sep: char, i: nat)
    requires i < |Piezas(s, sep)|
    ensures Strip(Piezas(s, sep)[i]) == Piezas(s, sep)[i]
  {
    StripIdempotente(Split(s, sep)[i]);
  }

  /** `strip()` only removes characters. */
  lemma StripSubcadena(x: string)
    ensures forall c :: c in Strip(x) ==> c in x
  {
    var d := QuitarDerecha(x);
    var r := Strip(x);
    forall c | c in r ensures c in x {
      var k :| 0 <= k < |r| && r[k] == c;
      assert r[k] == d[|d| - |r| + k];
      assert d[|d| - |r| + k] == x[|d| - |r| + k];
    }
  }

  /** The pieces of a split only hold characters of the string. */
  lemma {:induction false} SplitSubcadena(s: string, sep: char, i: nat)
    requires i < |Split(s, sep)|
    ensures forall c :: c in Split(s, sep)[i] ==> c in s
    decreases |s|
  {
    if s != [] {
      var resto := Split(s[1..], sep);
      if s[0] == sep {
        if i > 0 {
          SplitSubcadena(s[1..], sep, i - 1);
        }
      } else if i == 0 {
        SplitSubcadena(s[1..], sep, 0);
      } else {
        SplitSubcadena(s[1..], sep, i);
      }
    }
  }

  // ---------------------------------------------------------------- Numbers

  function Digito(d: nat): (c: char)
    requires d < 10
    ensures '0' <= c <= '9'
  {
    ('0' as int + d) as char
  }

  predicate EsDigito(c: char) { '0' <= c <= '9' }

  predicate SoloDigitos(s: string)
  {
    forall i :: 0 <= i < |s| ==> EsDigito(s[i])
  }

  /** `str(n)` for a natural number: its decimal digits, without leading zeros. */
  function NatATexto(n: nat): (s: string)
    ensures |s| >= 1 && SoloDigitos(s)
    ensures n > 0 ==> s[0] != '0'
  {
    if n < 10 then [Digito(n)] else NatATexto(n / 10) + [Digito(n % 10)]
  }

  /** `str(i)` for any integer. */
  function IntATexto(i: int): (s: string)
    ensures |s| >= 1
    ensures !EsEspacio(s[0]) && !EsEspacio(s[|s| - 1])
  {
    if i < 0 then "-" + NatATexto(-i) else NatATexto(i)
  }

  /** The value of a non-empty string of decimal digits. */
  function ValorDigitos(s: string): (n: nat)
    requires |s| >= 1 && SoloDigitos(s)
  {
    var d := s[|s| - 1] as int - '0' as int;
    if |s| == 1 then d else ValorDigitos(s[..|s| - 1]) * 10 + d
  }

  lemma {:induction false} ValorNatATexto(n: nat)
    ensures ValorDigitos(NatATexto(n)) == n
  {
    if n >= 10 {
      ValorNatATexto(n / 10);
      var s := NatATexto(n);
      assert s[..|s| - 1] == NatATexto(n / 10);
    }
  }

  /** Python `int(s)` on text: optional sign, decimal digits, surrounding whitespace ignored. */
  function ParseInt(s: string): (r: Option<int>)
  {
    LeerEntero(Strip(s))
  }

  /** `int` on text already stripped. */
  function LeerEntero(t: string): (r: Option<int>)
  {
    if t == [] then None
    else if t[0] == '-' || t[0] == '+' then
      var cuerpo := t[1..];
      if |cuerpo| >= 1 && SoloDigitos(cuerpo) then
        Some(if t[0] == '-' then -(ValorDigitos(cuerpo) as int) else ValorDigitos(cuerpo))
      else None
    else if SoloDigitos(t) then Some(ValorDigitos(t))
    else None
  }

  /** `int(str(i)) == i`. */
  lemma ParseIntATexto(i: int)
    ensures ParseInt(IntATexto(i)) == Some(i)
  {
    StripSinBordes(IntATexto(i));
    if i < 0 {
      ValorNatATexto(-i);
      LeerNegativo(NatATexto(-i));
    } else {
      ValorNatATexto(i);
      LeerDigitos(NatATexto(i));
    }
  }

  /** A minus sign followed by digits reads as the negated value. */
  lemma LeerNegativo(t: string)
    requires |t| >= 1 && SoloDigitos(t)
    ensures LeerEntero("-" + t) == Some(-(ValorDigitos(t) as int))
  {
    assert ("-" + t)[1..] == t;
  }

  /** Digits alone read as their value. */
  lemma LeerDigitos(t: string)
    requires |t| >= 1 && SoloDigitos(t)
    ensures LeerEntero(t) == Some(ValorDigitos(t))
  {
    assert EsDigito(t[0]);
  }

  function Rellenar(s: string, ancho: nat, c: char): (r: string)
    ensures |r| == if |s| >= ancho then |s| else ancho
    ensures r[|r| - |s|..] == s
    decreases ancho - |s|
  {
    if |s| >= ancho then s else Rellenar([c] + s, ancho, c)
  }

  /** `f"{n:0<ancho>d}"`: the digits of `n` padded with zeros on the left. */
  function CerosIzquierda(n: nat, ancho: nat): (r: string)
    ensures |r| >= ancho
  {
    Rellenar(NatATexto(n), ancho, '0')
  }

  predicate Contiene(s: string, c: char) { c in s }

  predicate EmpiezaCon(s: string, p: string) { |p| <= |s| && s[..|p|] == p }

  /** `s[:n]`. */
  function Prefijo(s: string, n: nat): (r: string)
    ensures |r| == if |s| <= n then |s| else n
    ensures r == s[..|r|]
  {
    if |s| <= n then s else s[..n]
  }

  /** The number of digits of `n` is bounded by its size. */
  lemma {:induction false} LongitudNatATexto(n: nat, d: nat)
    ensures n < Pot10(d + 1) ==> |NatATexto(n)| <= d + 1
    ensures n >= Pot10(d) ==> |NatATexto(n)| >= d + 1
  {
    if n >= 10 {
      if d > 0 {
        LongitudNatATexto(n / 10, d - 1);
        assert Pot10(d + 1) == 10 * Pot10(d);
        assert Pot10(d) == 10 * Pot10(d - 1);
      }
    } else if d > 0 {
      assert Pot10(d) == 10 * Pot10(d - 1);
    }
  }

  /** A leading zero does not change the value of a digit string. */
  lemma {:induction false} ValorCeroIzquierda(s: string)
    requires |s| >= 1 && SoloDigitos(s)
    ensures SoloDigitos(['0'] + s) && ValorDigitos(['0'] + s) == ValorDigitos(s)
    decreases |s|
  {
    var t := ['0'] + s;
    if |s| > 1 {
      ValorCeroIzquierda(s[..|s| - 1]);
      assert t[..|t| - 1] == ['0'] + s[..|s| - 1];
    } else {
      assert t[..|t| - 1] == ['0'];
    }
  }

  lemma {:induction false} ValorRellenarCeros(s: string, ancho: nat)
    requires |s| >= 1 && SoloDigitos(s)
    ensures SoloDigitos(Rellenar(s, ancho, '0'))
    ensures ValorDigitos(Rellenar(s, ancho, '0')) == ValorDigitos(s)
    decreases ancho - |s|
  {
    if |s| < ancho {
      ValorCeroIzquierda(s);
      ValorRellenarCeros(['0'] + s, ancho);
    }
  }

  /** A number below `10^ancho` padded with zeros has exactly `ancho` digits and keeps its value. */
  lemma CerosIzquierdaExacto(n: nat, ancho: nat)
    requires ancho >= 1 && n < Pot10(ancho)
    ensures |CerosIzquierda(n, ancho)| == ancho
    ensures SoloDigitos(CerosIzquierda(n, ancho))
    ensures ValorDigitos(CerosIzquierda(n, ancho)) == n
  {
    LongitudNatATexto(n, ancho - 1);
    ValorRellenarCeros(NatATexto(n), ancho);
    ValorNatATexto(n);
  }
}

/**
 * Python's stable `sorted`/`list.sort` with a comparison, `itertools.groupby`
 * over consecutive equal keys, and the code-point order on `str` that tuple
 * keys compare with.
 */
module Ordenacion {

  // ------------------------------------------------------------ Orders

  /** A strict weak order: irreflexive, transitive, and incomparability is transitive. */
  ghost predicate OrdenDebil<T(!new)>(menor: (T, T) -> bool)
  {
    (forall a :: !menor(a, a))
    && (forall a, b, c :: menor(a, b) && menor(b, c) ==> menor(a, c))
    && (forall a, b, c :: menor(a, c) ==> menor(a, b) || menor(b, c))
  }

  /** No later element is strictly before an earlier one. */
  ghost predicate Ordenada<T>(s: seq<T>, menor: (T, T) -> bool)
  {
    forall i, j :: 0 <= i < j < |s| ==> !menor(s[j], s[i])
  }

  // ------------------------------------------------------ Insertion sort

  /** Puts `x` after the last element it is not strictly before, so equal keys keep their order. */
  function Insertar<T>(x: T, s: seq<T>, menor: (T, T) -> bool): (r: seq<T>)
    ensures |r| == |s| + 1
    ensures multiset(r) == multiset(s) + multiset{x}
  {
    if s == [] then [x]
    else if menor(x, s[|s| - 1]) then
      assert s == s[..|s| - 1] + [s[|s| - 1]];
      Insertar(x, s[..|s| - 1], menor) + [s[|s| - 1]]
    else s + [x]
  }

  /** The stable sort of `s` under `menor`. */
  function Ordenar<T>(s: seq<T>, menor: (T, T) -> bool): (r: seq<T>)
    ensures |r| == |s|
    ensures multiset(r) == multiset(s)
  {
    if s == [] then []
    else
      assert s == s[..|s| - 1] + [s[|s| - 1]];
      Insertar(s[|s| - 1], Ordenar(s[..|s| - 1], menor), menor)
  }

  lemma {:induction false} InsertarOrdenada<T(!new)>(x: T, s: seq<T>, menor: (T, T) -> bool)
    requires OrdenDebil(menor) && Ordenada(s, menor)
    ensures Ordenada(Insertar(x, s, menor), menor)
  {
    if s != [] {
      var n := |s| - 1;
      var u := s[n];
      if menor(x, u) {
        var previo := s[..n];
        PrefijoOrdenado(s, n, menor);
        InsertarOrdenada(x, previo, menor);
        var ins := Insertar(x, previo, menor);
        Asimetrico(x, u, menor);
        forall k | 0 <= k < |previo| ensures !menor(u, previo[k]) {
          assert previo[k] == s[k];
        }
        InsertadoNoAntes(u, x, previo, menor);
        AgregarOrdenada(ins, u, menor);
      } else {
        forall i | 0 <= i < |s| ensures !menor(x, s[i]) {
          if i < n {
            assert !menor(u, s[i]);
          }
        }
        AgregarOrdenada(s, x, menor);
      }
    }
  }

  /** A strict weak order is asymmetric. */
  lemma Asimetrico<T(!new)>(x: T, u: T, menor: (T, T) -> bool)
    requires OrdenDebil(menor) && menor(x, u)
    ensures !menor(u, x)
  {
    assert menor(u, x) ==> menor(x, x);
  }

  /** What no element of `s` nor `x` follows, no element of `s` with `x` inserted follows. */
  lemma InsertadoNoAntes<T>(u: T, x: T, s: seq<T>, menor: (T, T) -> bool)
    requires !menor(u, x) && forall k :: 0 <= k < |s| ==> !menor(u, s[k])
    ensures forall i :: 0 <= i < |Insertar(x, s, menor)| ==> !menor(u, Insertar(x, s, menor)[i])
  {
    var ins := Insertar(x, s, menor);
    forall i | 0 <= i < |ins| ensures !menor(u, ins[i]) {
      assert ins[i] in multiset(s) + multiset{x};
      if ins[i] != x {
        var k :| 0 <= k < |s| && s[k] == ins[i];
      }
    }
  }

  lemma PrefijoOrdenado<T>(s: seq<T>, n: nat, menor: (T, T) -> bool)
    requires n <= |s| && Ordenada(s, menor)
    ensures Ordenada(s[..n], menor)
  {
    forall i, j | 0 <= i < j < n ensures !menor(s[..n][j], s[..n][i]) {
      assert s[..n][i] == s[i] && s[..n][j] == s[j];
    }
  }

  lemma AgregarOrdenada<T>(s: seq<T>, y: T, menor: (T, T) -> bool)
    requires Ordenada(s, menor)
    requires forall i :: 0 <= i < |s| ==> !menor(y, s[i])
    ensures Ordenada(s + [y], menor)
  {
    var r := s + [y];
    forall i, j | 0 <= i < j < |r| ensures !menor(r[j], r[i]) {
      assert r[i] == s[i];
      if j < |s| { assert r[j] == s[j]; }
    }
  }

  /** The result of `Ordenar` is sorted, under any strict weak order. */
  lemma {:induction false} OrdenarOrdenada<T(!new)>(s: seq<T>, menor: (T, T) -> bool)
    requires OrdenDebil(menor)
    ensures Ordenada(Ordenar(s, menor), menor)
  {
    if s != [] {
      OrdenarOrdenada(s[..|s| - 1], menor);
      InsertarOrdenada(s[|s| - 1], Ordenar(s[..|s| - 1], menor), menor);
    }
  }

  // ------------------------------------------------------------ Stability

  /** The elements of `s` that satisfy `p`, in order. */
  function Filtrar<T>(s: seq<T>, p: T -> bool): (r: seq<T>)
    ensures |r| <= |s|
  {
    if s == [] then []
    else Filtrar(s[..|s| - 1], p) + (if p(s[|s| - 1]) then [s[|s| - 1]] else [])
  }

  lemma {:induction false} FiltrarConcat<T>(a: seq<T>, b: seq<T>, p: T -> bool)
    ensures Filtrar(a + b, p) == Filtrar(a, p) + Filtrar(b, p)
    decreases |b|
  {
    if b == [] {
      assert a + b == a;
    } else {
      var n := |b| - 1;
      FiltrarConcat(a, b[..n], p);
      assert (a + b)[..|a + b| - 1] == a + b[..n];
      assert (a + b)[|a + b| - 1] == b[n];
    }
  }

  /**
   * Inserting `x` leaves the order of the other elements that satisfy `p`
   * alone, and puts `x` after all of them when `x` satisfies `p` and is
   * never strictly before one of them.
   */
  lemma {:induction false} InsertarFiltrar<T>(x: T, s: seq<T>, menor: (T, T) -> bool, p: T -> bool)
    requires p(x) ==> forall i :: 0 <= i < |s| && p(s[i]) ==> !menor(x, s[i])
    ensures Filtrar(Insertar(x, s, menor), p) == Filtrar(s, p) + (if p(x) then [x] else [])
  {
    if s != [] {
      var n := |s| - 1;
      var u := s[n];
      if menor(x, u) {
        var previo := s[..n];
        assert s == previo + [u];
        assert forall i :: 0 <= i < |previo| ==> previo[i] == s[i];
        InsertarFiltrar(x, previo, menor, p);
        var ins := Insertar(x, previo, menor);
        FiltrarUltimo(ins, u, p);
        FiltrarUltimo(previo, u, p);
        assert p(x) ==> !p(u);
        var sx, su := (if p(x) then [x] else []), (if p(u) then [u] else []);
        IntercambiarVacio(Filtrar(previo, p), sx, su);
        calc {
          Filtrar(Insertar(x, s, menor), p);
          Filtrar(ins + [u], p);
          Filtrar(ins, p) + su;
          (Filtrar(previo, p) + sx) + su;
          (Filtrar(previo, p) + su) + sx;
          Filtrar(s, p) + sx;
        }
      } else {
        assert Insertar(x, s, menor) == s + [x];
        FiltrarUltimo(s, x, p);
      }
    } else {
      FiltrarUltimo([], x, p);
      assert Insertar(x, s, menor) == [] + [x];
    }
  }

  /**
   * The sort is stable: elements that satisfy `p` and are pairwise
   * incomparable come out in the order they went in.
   */
  lemma {:induction false} OrdenarEstable<T>(s: seq<T>, menor: (T, T) -> bool, p: T -> bool)
    requires forall a, b :: p(a) && p(b) ==> !menor(a, b)
    ensures Filtrar(Ordenar(s, menor), p) == Filtrar(s, p)
  {
    if s != [] {
      var n := |s| - 1;
      OrdenarEstable(s[..n], menor, p);
      var t := Ordenar(s[..n], menor);
      forall i | 0 <= i < |t| && p(s[n]) && p(t[i]) ensures !menor(s[n], t[i]) {
        Incomparables(s[n], t[i], menor, p);
      }
      InsertarFiltrar(s[n], t, menor, p);
    }
  }

  /** Of two appended pieces at most one is non-empty, so their order does not matter. */
  lemma IntercambiarVacio<T>(a: seq<T>, b: seq<T>, c: seq<T>)
    requires b == [] || c == []
    ensures (a + b) + c == (a + c) + b
  {
  }

  lemma FiltrarUltimo<T>(s: seq<T>, u: T, p: T -> bool)
    ensures Filtrar(s + [u], p) == Filtrar(s, p) + (if p(u) then [u] else [])
  {
    assert (s + [u])[..|s|] == s;
  }

  lemma Incomparables<T>(x: T, y: T, menor: (T, T) -> bool, p: T -> bool)
    requires forall a, b :: p(a) && p(b) ==> !menor(a, b)
    requires p(x) && p(y)
    ensures !menor(x, y)
  {
  }

  // ------------------------------------------------------------ groupby

  /** The runs of consecutive elements with equal key, as `itertools.groupby` yields them. */
  function Grupos<T, K(==)>(s: seq<T>, clave: T -> K): (g: seq<seq<T>>)
    ensures s == [] <==> g == []
    ensures forall i :: 0 <= i < |g| ==> g[i] != []
  {
    if s == [] then []
    else
      var previo := Grupos(s[..|s| - 1], clave);
      var x := s[|s| - 1];
      if previo != [] && clave(previo[|previo| - 1][0]) == clave(x) then
        previo[..|previo| - 1] + [previo[|previo| - 1] + [x]]
      else previo + [[x]]
  }

  /** The concatenation of a sequence of runs. */
  function Aplanar<T>(g: seq<seq<T>>): seq<T>
  {
    if g == [] then [] else Aplanar(g[..|g| - 1]) + g[|g| - 1]
  }

  ghost predicate ClaveUniforme<T, K>(grupo: seq<T>, clave: T -> K)
  {
    forall i :: 0 <= i < |grupo| ==> clave(grupo[i]) == clave(grupo[0])
  }

  /** The runs cover the sequence, in order. */
  lemma {:induction false} GruposAplanar<T, K>(s: seq<T>, clave: T -> K)
    ensures Aplanar(Grupos(s, clave)) == s
  {
    if s != [] {
      var previo := s[..|s| - 1];
      GruposAplanar(previo, clave);
      var gp := Grupos(previo, clave);
      var x := s[|s| - 1];
      assert s == previo + [x];
      if gp != [] && clave(gp[|gp| - 1][0]) == clave(x) {
        var m := |gp| - 1;
        assert gp == gp[..m] + [gp[m]];
        AplanarUltimo(gp[..m], gp[m]);
        AplanarUltimo(gp[..m], gp[m] + [x]);
      } else {
        AplanarUltimo(gp, [x]);
      }
    }
  }

  /** Each run has one key. */
  lemma {:induction false} GruposUniformes<T, K>(s: seq<T>, clave: T -> K)
    ensures forall i :: 0 <= i < |Grupos(s, clave)| ==> ClaveUniforme(Grupos(s, clave)[i], clave)
  {
    if s != [] {
      var previo := s[..|s| - 1];
      GruposUniformes(previo, clave);
      var gp := Grupos(previo, clave);
      var g := Grupos(s, clave);
      var x := s[|s| - 1];
      if gp != [] && clave(gp[|gp| - 1][0]) == clave(x) {
        var m := |gp| - 1;
        forall i | 0 <= i < |g| ensures ClaveUniforme(g[i], clave) {
          if i < m { assert g[i] == gp[i]; } else { assert ClaveUniforme(gp[m], clave); }
        }
      } else {
        forall i | 0 <= i < |g| ensures ClaveUniforme(g[i], clave) {
          if i < |gp| { assert g[i] == gp[i]; }
        }
      }
    }
  }

  /** Two consecutive runs have different keys. */
  lemma {:induction false} GruposVecinos<T, K>(s: seq<T>, clave: T -> K)
    ensures forall i :: 0 <= i < |Grupos(s, clave)| - 1 ==>
      clave(Grupos(s, clave)[i][0]) != clave(Grupos(s, clave)[i + 1][0])
  {
    if s != [] {
      var previo := s[..|s| - 1];
      GruposVecinos(previo, clave);
      var gp := Grupos(previo, clave);
      var g := Grupos(s, clave);
      var x := s[|s| - 1];
      if gp != [] && clave(gp[|gp| - 1][0]) == clave(x) {
        var m := |gp| - 1;
        forall i | 0 <= i < |g| - 1 ensures clave(g[i][0]) != clave(g[i + 1][0]) {
          assert g[i] == gp[i];
          if i + 1 < m { assert g[i + 1] == gp[i + 1]; } else { assert g[i + 1][0] == gp[m][0]; }
        }
      } else {
        forall i | 0 <= i < |g| - 1 ensures clave(g[i][0]) != clave(g[i + 1][0]) {
          assert g[i] == gp[i];
          if i + 1 < |gp| { assert g[i + 1] == gp[i + 1]; }
        }
      }
    }
  }

  lemma AplanarUltimo<T>(g: seq<seq<T>>, u: seq<T>)
    ensures Aplanar(g + [u]) == Aplanar(g) + u
  {
    assert (g + [u])[..|g|] == g;
  }

  // ------------------------------------------------- Code-point text order

  /** Python's `a < b` on `str`: lexicographic on code points, a proper prefix first. */
  predicate MenorTexto(a: string, b: string)
  {
    if a == [] then b != []
    else if b == [] then false
    else if a[0] != b[0] then a[0] < b[0]
    else MenorTexto(a[1..], b[1..])
  }

  /** `MenorTexto` is a strict total order. */
  lemma {:induction false} MenorTextoIrreflexivo(a: string)
    ensures !MenorTexto(a, a)
  {
    if a != [] { MenorTextoIrreflexivo(a[1..]); }
  }

  lemma {:induction false} MenorTextoTransitivo(a: string, b: string, c: string)
    requires MenorTexto(a, b) && MenorTexto(b, c)
    ensures MenorTexto(a, c)
  {
    if a != [] && b != [] && c != [] && a[0] == b[0] && b[0] == c[0] {
      MenorTextoTransitivo(a[1..], b[1..], c[1..]);
    }
  }

  lemma {:induction false} MenorTextoTotal(a: string, b: string)
    ensures a == b || MenorTexto(a, b) || MenorTexto(b, a)
  {
    if a != [] && b != [] && a[0] == b[0] {
      MenorTextoTotal(a[1..], b[1..]);
      if a[1..] == b[1..] {
        assert a == [a[0]] + a[1..] && b == [b[0]] + b[1..];
      }
    }
  }

  lemma MenorTextoAsimetrico(a: string, b: string)
    requires MenorTexto(a, b)
    ensures !MenorTexto(b, a)
  {
    if MenorTexto(b, a) {
      MenorTextoTransitivo(a, b, a);
      MenorTextoIrreflexivo(a);
    }
  }
}

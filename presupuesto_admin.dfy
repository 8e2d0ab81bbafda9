/**
 * `PorcentajeDiarioConfigAdmin.check_percentage_sum` (`presupuesto/admin.py`):
 * the admin action that checks, for the categories of the selected
 * percentage rows, that each has 7 weekday rows adding up to 100.00.
 *
 * The whole `PorcentajeDiarioConfig` table is the sequence `tabla`; the
 * selected rows are `seleccion`. The messages sent to the user are returned
 * in order, and so is the list of categories whose rows were queried.
 */
module PresupuestoAdmin {

  /** A `PorcentajeDiarioConfig` row: its category's name, its store and its percentage. */
  datatype Fila = Fila(categoria: string, sede: int, porcentaje: real)

  /** A message of the action: an error for one category, or the closing list of the categories found right. */
  datatype Mensaje = Error(categoria: string, dias: nat, suma: real) | Info(correctas: seq<string>)

  /** `all_pcts.count()`: the rows of the category, of every store. */
  function Cuenta(tabla: seq<Fila>, cat: string): nat
  {
    if tabla == [] then 0
    else Cuenta(tabla[..|tabla| - 1], cat) + (if tabla[|tabla| - 1].categoria == cat then 1 else 0)
  }

  /** `sum(p.porcentaje for p in all_pcts)`. */
  function Suma(tabla: seq<Fila>, cat: string): real
  {
    if tabla == [] then 0.0
    else Suma(tabla[..|tabla| - 1], cat) + (if tabla[|tabla| - 1].categoria == cat then tabla[|tabla| - 1].porcentaje else 0.0)
  }

  /** A category passes when it has exactly 7 rows and they add up to 100.00. */
  predicate Correcta(tabla: seq<Fila>, cat: string)
  {
    Cuenta(tabla, cat) == 7 && Suma(tabla, cat) == 100.0
  }

  /** The keys of `categories_checked` after the first `|sel|` selected rows, in insertion order. */
  function Verificadas(sel: seq<Fila>, tabla: seq<Fila>): seq<string>
  {
    if sel == [] then []
    else
      var previas := Verificadas(sel[..|sel| - 1], tabla);
      var cat := sel[|sel| - 1].categoria;
      previas + (if cat !in previas && Correcta(tabla, cat) then [cat] else [])
  }

  /** The categories whose rows are queried, one element per query. */
  function Evaluadas(sel: seq<Fila>, tabla: seq<Fila>): seq<string>
  {
    if sel == [] then []
    else
      var cat := sel[|sel| - 1].categoria;
      Evaluadas(sel[..|sel| - 1], tabla) + (if cat !in Verificadas(sel[..|sel| - 1], tabla) then [cat] else [])
  }

  /** The error messages, in order. */
  function Errores(sel: seq<Fila>, tabla: seq<Fila>): seq<Mensaje>
  {
    if sel == [] then []
    else
      var cat := sel[|sel| - 1].categoria;
      Errores(sel[..|sel| - 1], tabla)
      + (if cat !in Verificadas(sel[..|sel| - 1], tabla) && !Correcta(tabla, cat)
         then [Error(cat, Cuenta(tabla, cat), Suma(tabla, cat))] else [])
  }

  /** Every message of the action: the errors, then the list of the categories found right when there is one. */
  function Informe(sel: seq<Fila>, tabla: seq<Fila>): seq<Mensaje>
  {
    var ok := Verificadas(sel, tabla);
    Errores(sel, tabla) + (if ok != [] then [Info(ok)] else [])
  }

  /** `[name for name, total in categories_checked.items() if total == 100]`. */
  function ConCien(orden: seq<string>, revisadas: map<string, real>): (r: seq<string>)
    requires forall c :: c in orden ==> c in revisadas
    ensures forall c :: c in r ==> c in orden && revisadas[c] == 100.0
  {
    if orden == [] then []
    else
      var c := orden[|orden| - 1];
      ConCien(orden[..|orden| - 1], revisadas) + (if revisadas[c] == 100.0 then [c] else [])
  }

  /** Only 100.00 is ever stored, so the closing filter keeps every key. */
  lemma {:induction false} ConCienTodas(orden: seq<string>, revisadas: map<string, real>)
    requires forall c :: c in orden ==> c in revisadas && revisadas[c] == 100.0
    ensures ConCien(orden, revisadas) == orden
  {
    if orden != [] {
      ConCienTodas(orden[..|orden| - 1], revisadas);
    }
  }

  /** The rows of the table that belong to a category, and their count and sum. */
  method ConsultarCategoria(tabla: seq<Fila>, cat: string) returns (cuenta: nat, total: real)
    ensures cuenta == Cuenta(tabla, cat) && total == Suma(tabla, cat)
  {
    cuenta, total := 0, 0.0;
    var j := 0;
    while j < |tabla|
      invariant 0 <= j <= |tabla|
      invariant cuenta == Cuenta(tabla[..j], cat) && total == Suma(tabla[..j], cat)
    {
      assert tabla[..j + 1][..j] == tabla[..j];
      if tabla[j].categoria == cat {
        cuenta := cuenta + 1;
        total := total + tabla[j].porcentaje;
      }
      j := j + 1;
    }
    assert tabla[..|tabla|] == tabla;
  }

  /** `check_percentage_sum`: the loop over the selected rows, then the closing message. */
  method VerificarSumaPorcentajes(seleccion: seq<Fila>, tabla: seq<Fila>)
    returns (mensajes: seq<Mensaje>, evaluadas: seq<string>)
    ensures mensajes == Informe(seleccion, tabla)
    ensures evaluadas == Evaluadas(seleccion, tabla)
  {
    var revisadas: map<string, real> := map[];
    var orden: seq<string> := [];
    mensajes, evaluadas := [], [];
    var i := 0;
    while i < |seleccion|
      invariant 0 <= i <= |seleccion|
      invariant orden == Verificadas(seleccion[..i], tabla)
      invariant forall c :: c in revisadas <==> c in orden
      invariant forall c :: c in revisadas ==> revisadas[c] == 100.0
      invariant mensajes == Errores(seleccion[..i], tabla)
      invariant evaluadas == Evaluadas(seleccion[..i], tabla)
    {
      assert seleccion[..i + 1][..i] == seleccion[..i];
      var nombre := seleccion[i].categoria;
      if nombre !in revisadas {
        evaluadas := evaluadas + [nombre];
        var cuenta, total := ConsultarCategoria(tabla, nombre);
        if cuenta != 7 || total != 100.0 {
          mensajes := mensajes + [Error(nombre, cuenta, total)];
        } else {
          revisadas := revisadas[nombre := total];
          orden := orden + [nombre];
        }
      }
      i := i + 1;
    }
    assert seleccion[..|seleccion|] == seleccion;
    ConCienTodas(orden, revisadas);
    var correctas := ConCien(orden, revisadas);
    if correctas != [] {
      mensajes := mensajes + [Info(correctas)];
    }
  }

  // ------------------------------------------------------------ what the report means

  /** The number of selected rows of a category. */
  function Veces(sel: seq<Fila>, cat: string): nat
  {
    if sel == [] then 0 else Veces(sel[..|sel| - 1], cat) + (if sel[|sel| - 1].categoria == cat then 1 else 0)
  }

  function VecesEn(xs: seq<string>, cat: string): nat
  {
    if xs == [] then 0 else VecesEn(xs[..|xs| - 1], cat) + (if xs[|xs| - 1] == cat then 1 else 0)
  }

  /** A category is listed as right exactly when one of its rows was selected and it passes, and it is listed once. */
  lemma {:induction false} VerificadasSon(sel: seq<Fila>, tabla: seq<Fila>, cat: string)
    ensures cat in Verificadas(sel, tabla) <==> Veces(sel, cat) > 0 && Correcta(tabla, cat)
    ensures VecesEn(Verificadas(sel, tabla), cat) <= 1
  {
    if sel != [] {
      var k := |sel| - 1;
      VerificadasSon(sel[..k], tabla, cat);
      VecesConcat(Verificadas(sel[..k], tabla), if sel[k].categoria !in Verificadas(sel[..k], tabla) && Correcta(tabla, sel[k].categoria) then [sel[k].categoria] else [], cat);
      VecesEnCero(Verificadas(sel[..k], tabla), cat);
    }
  }

  lemma {:induction false} VecesConcat(a: seq<string>, b: seq<string>, cat: string)
    ensures VecesEn(a + b, cat) == VecesEn(a, cat) + VecesEn(b, cat)
    decreases |b|
  {
    if b == [] {
      assert a + b == a;
    } else {
      assert (a + b)[..|a + b| - 1] == a + b[..|b| - 1];
      VecesConcat(a, b[..|b| - 1], cat);
    }
  }

  lemma {:induction false} VecesEnCero(xs: seq<string>, cat: string)
    ensures VecesEn(xs, cat) == 0 <==> cat !in xs
  {
    if xs != [] {
      VecesEnCero(xs[..|xs| - 1], cat);
      assert xs == xs[..|xs| - 1] + [xs[|xs| - 1]];
    }
  }

  /** A category that passes is queried once, at its first selected row; one that fails is queried at every selected row. */
  lemma {:induction false} EvaluadasVeces(sel: seq<Fila>, tabla: seq<Fila>, cat: string)
    ensures VecesEn(Evaluadas(sel, tabla), cat) == if Correcta(tabla, cat) && Veces(sel, cat) > 0 then 1 else Veces(sel, cat)
  {
    if sel != [] {
      var k := |sel| - 1;
      EvaluadasVeces(sel[..k], tabla, cat);
      VerificadasSon(sel[..k], tabla, cat);
      var nuevo := if sel[k].categoria !in Verificadas(sel[..k], tabla) then [sel[k].categoria] else [];
      VecesConcat(Evaluadas(sel[..k], tabla), nuevo, cat);
    }
  }

  /** Every error names a failing category with its count and sum; a failing category gets one error per selected row of it. */
  lemma {:induction false} ErroresSon(sel: seq<Fila>, tabla: seq<Fila>, cat: string)
    ensures forall m :: m in Errores(sel, tabla) ==>
              m.Error? && !Correcta(tabla, m.categoria) && m.dias == Cuenta(tabla, m.categoria) && m.suma == Suma(tabla, m.categoria)
    ensures multiset(Errores(sel, tabla))[Error(cat, Cuenta(tabla, cat), Suma(tabla, cat))]
            == if Correcta(tabla, cat) then 0 else Veces(sel, cat)
  {
    if sel != [] {
      var k := |sel| - 1;
      ErroresSon(sel[..k], tabla, cat);
      VerificadasSon(sel[..k], tabla, sel[k].categoria);
    }
  }

  /** The closing list is sent exactly when some selected row belongs to a category that passes. */
  lemma InformeCorrectas(sel: seq<Fila>, tabla: seq<Fila>)
    ensures Info(Verificadas(sel, tabla)) in Informe(sel, tabla) <==> exists k :: 0 <= k < |sel| && Correcta(tabla, sel[k].categoria)
  {
    ErroresSon(sel, tabla, "");
    if exists k :: 0 <= k < |sel| && Correcta(tabla, sel[k].categoria) {
      var k :| 0 <= k < |sel| && Correcta(tabla, sel[k].categoria);
      VecesPositivo(sel, k);
      VerificadasSon(sel, tabla, sel[k].categoria);
    }
    if Verificadas(sel, tabla) != [] {
      var c := Verificadas(sel, tabla)[0];
      VerificadasSon(sel, tabla, c);
      var k := VecesTestigo(sel, c);
    }
  }

  /** A category gets an error message exactly when one of its rows was selected and it fails. */
  lemma InformeErrores(sel: seq<Fila>, tabla: seq<Fila>, cat: string)
    ensures (exists m :: m in Informe(sel, tabla) && m.Error? && m.categoria == cat) <==> Veces(sel, cat) > 0 && !Correcta(tabla, cat)
  {
    ErroresSon(sel, tabla, cat);
    var m := Error(cat, Cuenta(tabla, cat), Suma(tabla, cat));
    if Veces(sel, cat) > 0 && !Correcta(tabla, cat) {
      assert m in Errores(sel, tabla);
    }
  }

  lemma {:induction false} VecesPositivo(sel: seq<Fila>, k: nat)
    requires k < |sel|
    ensures Veces(sel, sel[k].categoria) > 0
  {
    if k < |sel| - 1 {
      assert sel[..|sel| - 1][k] == sel[k];
      VecesPositivo(sel[..|sel| - 1], k);
    }
  }

  lemma {:induction false} VecesTestigo(sel: seq<Fila>, cat: string) returns (k: nat)
    requires Veces(sel, cat) > 0
    ensures k < |sel| && sel[k].categoria == cat
  {
    if sel[|sel| - 1].categoria == cat {
      k := |sel| - 1;
    } else {
      k := VecesTestigo(sel[..|sel| - 1], cat);
    }
  }

  /** The count does not look at the store: a category configured right in two stores has 14 rows and is reported as an error. */
  lemma {:induction false} DosSedes(a: seq<Fila>, b: seq<Fila>, cat: string)
    requires Correcta(a, cat) && Correcta(b, cat)
    ensures Cuenta(a + b, cat) == 14 && !Correcta(a + b, cat)
    decreases |b|
  {
    CuentaConcat(a, b, cat);
  }

  lemma {:induction false} CuentaConcat(a: seq<Fila>, b: seq<Fila>, cat: string)
    ensures Cuenta(a + b, cat) == Cuenta(a, cat) + Cuenta(b, cat)
    decreases |b|
  {
    if b == [] {
      assert a + b == a;
    } else {
      assert (a + b)[..|a + b| - 1] == a + b[..|b| - 1];
      CuentaConcat(a, b[..|b| - 1], cat);
    }
  }
}

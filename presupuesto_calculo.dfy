/**
 * `calcular_presupuesto_con_porcentajes_dinamicos` (`presupuesto/utils.py`):
 * splits each category's monthly budget of one store into daily values.
 * Every weekday of a category has a configured percentage; a weekday's rate
 * is the budget times that percentage over 100, divided by the number of
 * times the weekday occurs in the month and rounded half up to hundredths.
 * The last day of the month absorbs what the rounded rates leave over.
 *
 * The categories known to the database, with the percentage rows of the
 * store, are the map `catalogo`; the input dictionary is a sequence of
 * entries, its keys in insertion order.
 */
module PresupuestoCalculo {
  import opened Resultados
  import opened Decimales
  import opened Calendario

  /** An input budget: `None`, a number, or a value `Decimal()` refuses (`InvalidOperation`, `TypeError`). */
  datatype Monto = SinValor | Numero(x: real) | Invalido

  datatype Entrada = Entrada(categoria: string, monto: Monto)

  /** A `PorcentajeDiarioConfig` row: a weekday (Monday = 0) and its percentage. */
  datatype Config = Config(diaSemana: int, porcentaje: real)

  /** A category that passed the set-up: its name, its budget and its weekday percentages. */
  datatype Valida = Valida(nombre: string, presupuesto: real, porcentajes: map<int, real>)

  /** One category's entry of a day: `valor` and `porcentaje_usado`. */
  datatype ValorCategoria = ValorCategoria(categoria: string, valor: real, porcentajeUsado: real)

  /** An element of `fechas_del_mes_info`: the day of the month and its weekday. */
  datatype InfoDia = InfoDia(dia: nat, diaSemana: nat, nombreDia: string)

  /** An adjusted day: its date, its categories and `total_dia_componentes`. */
  datatype DiaPresupuesto = DiaPresupuesto(info: InfoDia, valores: seq<ValorCategoria>, totalComponentes: real)

  /** The three results: the days, the final total per category and the grand total of the components. */
  datatype Calculo = Calculo(dias: seq<DiaPresupuesto>, totales: map<string, real>, granTotal: real)

  /** The category that stands for the whole store and is not a component. */
  const TOTAL_SEDE: string := "Total Sede"

  const NOMBRES_DIAS: seq<string> := ["Lunes", "Martes", "Miércoles", "Jueves", "Viernes", "Sábado", "Domingo"]

  // ------------------------------------------------------------ set-up of the categories

  /** The budget written back into the input dictionary: missing, invalid or negative budgets become 0. */
  function Normalizado(m: Monto): (b: real)
    ensures b >= 0.0
    ensures m.Numero? && m.x >= 0.0 ==> b == m.x
    ensures !m.Numero? || m.x < 0.0 ==> b == 0.0
  {
    match m
    case Numero(x) => if x < 0.0 then 0.0 else x
    case _ => 0.0
  }

  function Normalizadas(entradas: seq<Entrada>): (r: seq<Entrada>)
    ensures |r| == |entradas|
  {
    seq(|entradas|, i requires 0 <= i < |entradas| => Entrada(entradas[i].categoria, Numero(Normalizado(entradas[i].monto))))
  }

  /** `{c.dia_semana: c.porcentaje for c in configs}`: a later row of the same weekday wins. */
  function MapaPorcentajes(configs: seq<Config>): (m: map<int, real>)
  {
    if configs == [] then map[]
    else
      var c := configs[|configs| - 1];
      MapaPorcentajes(configs[..|configs| - 1])[c.diaSemana := c.porcentaje]
  }

  /** `porcentajes_cat.get(dia_idx, Decimal("0"))`. */
  function PctDia(porcentajes: map<int, real>, dia: int): real
  {
    if dia in porcentajes then porcentajes[dia] else 0.0
  }

  /** Whether an entry passes: a valid budget, a known category and exactly 7 percentage rows. */
  predicate Pasa(e: Entrada, catalogo: map<string, seq<Config>>)
  {
    !e.monto.Invalido? && e.categoria in catalogo && |catalogo[e.categoria]| == 7
  }

  /** `categorias_validas` with their budgets and percentage maps, in input order. */
  function Validas(entradas: seq<Entrada>, catalogo: map<string, seq<Config>>): (vs: seq<Valida>)
    ensures |vs| <= |entradas|
  {
    if entradas == [] then []
    else
      var e := entradas[|entradas| - 1];
      Validas(entradas[..|entradas| - 1], catalogo)
      + (if Pasa(e, catalogo) then [Valida(e.categoria, Normalizado(e.monto), MapaPorcentajes(catalogo[e.categoria]))] else [])
  }

  /** The set-up loop: normalizes every budget in place and keeps the categories that pass. */
  method ValidarCategorias(entradas: seq<Entrada>, catalogo: map<string, seq<Config>>)
    returns (validas: seq<Valida>, normalizadas: seq<Entrada>)
    ensures validas == Validas(entradas, catalogo)
    ensures normalizadas == Normalizadas(entradas)
  {
    validas := [];
    normalizadas := entradas;
    var i := 0;
    while i < |entradas|
      invariant 0 <= i <= |entradas| && |normalizadas| == |entradas|
      invariant validas == Validas(entradas[..i], catalogo)
      invariant forall j :: 0 <= j < i ==> normalizadas[j] == Normalizadas(entradas)[j]
      invariant forall j :: i <= j < |entradas| ==> normalizadas[j] == entradas[j]
    {
      assert entradas[..i + 1][..i] == entradas[..i];
      var e := entradas[i];
      if e.monto.Invalido? {
        normalizadas := normalizadas[i := Entrada(e.categoria, Numero(0.0))];
      } else {
        var b := if e.monto.SinValor? then 0.0 else e.monto.x;
        if b < 0.0 {
          b := 0.0;
        }
        normalizadas := normalizadas[i := Entrada(e.categoria, Numero(b))];
        if e.categoria in catalogo {
          var configs := catalogo[e.categoria];
          if |configs| == 7 {
            validas := validas + [Valida(e.categoria, b, MapaPorcentajes(configs))];
          }
        }
      }
      i := i + 1;
    }
    assert entradas[..|entradas|] == entradas;
  }

  /** The keys of the input dictionary are distinct. */
  predicate Distintas(entradas: seq<Entrada>)
  {
    forall i, j :: 0 <= i < j < |entradas| ==> entradas[i].categoria != entradas[j].categoria
  }

  predicate NombresDistintos(validas: seq<Valida>)
  {
    forall i, j :: 0 <= i < j < |validas| ==> validas[i].nombre != validas[j].nombre
  }

  /** Every valid category comes from an entry that passes, with its normalized budget and its percentage map. */
  lemma {:induction false} ValidasOrigen(entradas: seq<Entrada>, catalogo: map<string, seq<Config>>, c: nat)
    requires c < |Validas(entradas, catalogo)|
    ensures exists i :: 0 <= i < |entradas| && Pasa(entradas[i], catalogo)
              && Validas(entradas, catalogo)[c]
                 == Valida(entradas[i].categoria, Normalizado(entradas[i].monto), MapaPorcentajes(catalogo[entradas[i].categoria]))
    decreases |entradas|
  {
    var k := |entradas| - 1;
    var previas := Validas(entradas[..k], catalogo);
    if c < |previas| {
      ValidasOrigen(entradas[..k], catalogo, c);
      var i :| 0 <= i < k && Pasa(entradas[..k][i], catalogo)
               && previas[c] == Valida(entradas[..k][i].categoria, Normalizado(entradas[..k][i].monto),
                                       MapaPorcentajes(catalogo[entradas[..k][i].categoria]));
      assert entradas[..k][i] == entradas[i];
    } else {
      assert Pasa(entradas[k], catalogo);
    }
  }

  /** Every entry that passes becomes a valid category. */
  lemma {:induction false} ValidasCompleta(entradas: seq<Entrada>, catalogo: map<string, seq<Config>>, i: nat)
    requires i < |entradas| && Pasa(entradas[i], catalogo)
    ensures exists c :: 0 <= c < |Validas(entradas, catalogo)| && Validas(entradas, catalogo)[c].nombre == entradas[i].categoria
    decreases |entradas|
  {
    var k := |entradas| - 1;
    var previas := Validas(entradas[..k], catalogo);
    if i == k {
      assert Validas(entradas, catalogo)[|previas|].nombre == entradas[i].categoria;
    } else {
      assert entradas[..k][i] == entradas[i];
      ValidasCompleta(entradas[..k], catalogo, i);
      var c :| 0 <= c < |previas| && previas[c].nombre == entradas[i].categoria;
      assert Validas(entradas, catalogo)[c] == previas[c];
    }
  }

  /** Distinct keys give distinct valid categories. */
  lemma {:induction false} ValidasDistintas(entradas: seq<Entrada>, catalogo: map<string, seq<Config>>)
    requires Distintas(entradas)
    ensures NombresDistintos(Validas(entradas, catalogo))
    decreases |entradas|
  {
    if entradas != [] {
      var k := |entradas| - 1;
      var previas := Validas(entradas[..k], catalogo);
      ValidasDistintas(entradas[..k], catalogo);
      forall c | 0 <= c < |previas|
        ensures previas[c].nombre != entradas[k].categoria
      {
        ValidasOrigen(entradas[..k], catalogo, c);
        var i :| 0 <= i < k && previas[c].nombre == entradas[..k][i].categoria;
        assert entradas[..k][i] == entradas[i];
      }
    }
  }

  // ------------------------------------------------------------ weekdays of the month

  /** How often each weekday occurs among the first `i` days, when the first day has weekday `w0`. */
  function Conteo(w0: nat, i: nat): (occ: seq<nat>)
    ensures |occ| == 7
  {
    if i == 0 then [0, 0, 0, 0, 0, 0, 0]
    else
      var occ := Conteo(w0, i - 1);
      var k := (w0 + i - 1) % 7;
      occ[k := occ[k] + 1]
  }

  /** `fechas_del_mes_info`: day `i + 1` has weekday `(w0 + i) % 7`. */
  function InfoDias(w0: nat, n: nat): (r: seq<InfoDia>)
    ensures |r| == n
  {
    seq(n, i requires 0 <= i < n => InfoDia(i + 1, (w0 + i) % 7, NOMBRES_DIAS[(w0 + i) % 7]))
  }

  lemma ConteoMas(w0: nat, i: nat)
    ensures var k := (w0 + i) % 7; Conteo(w0, i + 1) == Conteo(w0, i)[k := Conteo(w0, i)[k] + 1]
  {
  }

  lemma InfoDiasMas(w0: nat, i: nat)
    ensures InfoDias(w0, i + 1) == InfoDias(w0, i) + [InfoDia(i + 1, (w0 + i) % 7, NOMBRES_DIAS[(w0 + i) % 7])]
  {
    var a, b := InfoDias(w0, i + 1), InfoDias(w0, i) + [InfoDia(i + 1, (w0 + i) % 7, NOMBRES_DIAS[(w0 + i) % 7])];
    forall k | 0 <= k < i + 1 ensures a[k] == b[k] {
    }
  }

  /** The loop over the days of the month: counts each weekday and lists the dates. */
  method RecorrerMes(w0: nat, n: nat) returns (occ: seq<nat>, fechas: seq<InfoDia>)
    ensures occ == Conteo(w0, n)
    ensures fechas == InfoDias(w0, n)
  {
    occ := [0, 0, 0, 0, 0, 0, 0];
    fechas := [];
    var i := 0;
    while i < n
      invariant 0 <= i <= n
      invariant occ == Conteo(w0, i)
      invariant fechas == InfoDias(w0, i)
    {
      var diaIdx := (w0 + i) % 7;
      ConteoMas(w0, i);
      occ := occ[diaIdx := occ[diaIdx] + 1];
      InfoDiasMas(w0, i);
      fechas := fechas + [InfoDia(i + 1, diaIdx, NOMBRES_DIAS[diaIdx])];
      i := i + 1;
    }
  }

  function Suma7(occ: seq<nat>): nat
    requires |occ| == 7
  {
    occ[0] + occ[1] + occ[2] + occ[3] + occ[4] + occ[5] + occ[6]
  }

  /** Every day counts once: the occurrences add up to the number of days. */
  lemma {:induction false} ConteoSuma(w0: nat, i: nat)
    ensures Suma7(Conteo(w0, i)) == i
  {
    if i > 0 {
      ConteoSuma(w0, i - 1);
      Suma7Incrementa(Conteo(w0, i - 1), (w0 + i - 1) % 7);
    }
  }

  /** One more occurrence of one weekday adds one to the total. */
  lemma Suma7Incrementa(occ: seq<nat>, k: nat)
    requires |occ| == 7 && k < 7
    ensures Suma7(occ[k := occ[k] + 1]) == Suma7(occ) + 1
  {
  }

  /** A weekday `d` places after the first day's occurs `i / 7` times, plus once more when `d < i % 7`. */
  lemma {:induction false} ConteoCerrado(w0: nat, i: nat, k: nat)
    requires w0 < 7 && k < 7
    ensures Conteo(w0, i)[k] == i / 7 + (if (k - w0) % 7 < i % 7 then 1 else 0)
  {
    if i > 0 {
      ConteoCerrado(w0, i - 1, k);
      PasoConteo(w0, i - 1, k);
    }
  }

  lemma PasoConteo(w0: nat, j: nat, k: nat)
    requires w0 < 7 && k < 7
    ensures (j + 1) / 7 + (if (k - w0) % 7 < (j + 1) % 7 then 1 else 0)
            == j / 7 + (if (k - w0) % 7 < j % 7 then 1 else 0) + (if k == (w0 + j) % 7 then 1 else 0)
  {
    var d := (k - w0) % 7;
    var q, r := j / 7, j % 7;
    assert j == 7 * q + r;
    assert k == (w0 + d) % 7;
    if r == 6 {
      assert (j + 1) / 7 == q + 1 && (j + 1) % 7 == 0;
    } else {
      assert (j + 1) / 7 == q && (j + 1) % 7 == r + 1;
    }
    assert (k == (w0 + j) % 7) <==> d == r;
  }

  /** In a month of 28 to 31 days every weekday occurs 4 or 5 times, and the counts add up to the month's length. */
  lemma OcurrenciasMes(w0: nat, n: nat)
    requires w0 < 7 && 28 <= n <= 31
    ensures Suma7(Conteo(w0, n)) == n
    ensures forall k :: 0 <= k < 7 ==> 4 <= Conteo(w0, n)[k] <= 5
  {
    ConteoSuma(w0, n);
    forall k | 0 <= k < 7
      ensures 4 <= Conteo(w0, n)[k] <= 5
    {
      ConteoCerrado(w0, n, k);
    }
  }

  // ------------------------------------------------------------ rates

  /** A weekday's rate: the budget's share for that weekday divided by its occurrences, rounded half up; 0 when it does not occur. */
  function Tarifa(presupuesto: real, pct: real, ocurrencias: nat): (t: real)
    ensures Centesimal(t)
  {
    if ocurrencias > 0 then Redondear2(presupuesto * (pct / 100.0) / ocurrencias as real)
    else (CentesimalEntero(0); 0.0)
  }

  /** `mapa_tarifas_diarias_brutas[nombre_cat]`, Monday to Sunday. */
  function TarifasCategoria(v: Valida, occ: seq<nat>): (t: seq<real>)
    requires |occ| == 7
    ensures |t| == 7
  {
    seq(7, k requires 0 <= k < 7 => Tarifa(v.presupuesto, PctDia(v.porcentajes, k), occ[k]))
  }

  /** The body of the inner loop: the weekday's share of the budget, then its rate. */
  method CalcularTarifa(presupuesto: real, porcentajeDia: real, numOcurrencias: nat) returns (tarifa: real)
    ensures tarifa == Tarifa(presupuesto, porcentajeDia, numOcurrencias)
  {
    var totalParaTipoDia := presupuesto * (porcentajeDia / 100.0);
    tarifa := 0.0;
    if numOcurrencias > 0 {
      tarifa := Redondear2(totalParaTipoDia / numOcurrencias as real);
    }
  }

  /** The inner loop over the seven weekdays of one category. */
  method CalcularTarifasCategoria(v: Valida, occ: seq<nat>) returns (fila: seq<real>)
    requires |occ| == 7
    ensures fila == TarifasCategoria(v, occ)
  {
    fila := [];
    var k := 0;
    while k < 7
      invariant 0 <= k <= 7 && fila == TarifasCategoria(v, occ)[..k]
    {
      var porcentajeDia := PctDia(v.porcentajes, k);
      var tarifa := CalcularTarifa(v.presupuesto, porcentajeDia, occ[k]);
      assert tarifa == TarifasCategoria(v, occ)[k];
      assert TarifasCategoria(v, occ)[..k + 1] == TarifasCategoria(v, occ)[..k] + [tarifa];
      fila := fila + [tarifa];
      k := k + 1;
    }
  }

  function TablaTarifas(validas: seq<Valida>, occ: seq<nat>): (t: seq<seq<real>>)
    requires |occ| == 7
    ensures |t| == |validas|
  {
    seq(|validas|, c requires 0 <= c < |validas| => TarifasCategoria(validas[c], occ))
  }

  /** The loop over the valid categories that fills the rate table. */
  method CalcularTarifas(validas: seq<Valida>, occ: seq<nat>) returns (tarifas: seq<seq<real>>)
    requires |occ| == 7
    ensures tarifas == TablaTarifas(validas, occ)
  {
    tarifas := [];
    var c := 0;
    while c < |validas|
      invariant 0 <= c <= |validas| && tarifas == TablaTarifas(validas, occ)[..c]
    {
      var fila := CalcularTarifasCategoria(validas[c], occ);
      tarifas := tarifas + [fila];
      c := c + 1;
    }
  }

  // ------------------------------------------------------------ raw daily values

  /** A well-formed rate table: seven rates per category. */
  predicate Tabla(validas: seq<Valida>, tarifas: seq<seq<real>>)
  {
    |tarifas| == |validas| && forall c :: 0 <= c < |tarifas| ==> |tarifas[c]| == 7
  }

  /** The categories of a raw day: each takes the rate of the day's weekday. */
  function Brutos(validas: seq<Valida>, tarifas: seq<seq<real>>, info: InfoDia): (r: seq<ValorCategoria>)
    requires Tabla(validas, tarifas) && info.diaSemana < 7
    ensures |r| == |validas|
  {
    seq(|validas|, c requires 0 <= c < |validas| =>
      ValorCategoria(validas[c].nombre, tarifas[c][info.diaSemana], PctDia(validas[c].porcentajes, info.diaSemana)))
  }

  /** The sum of a category's raw values over the first `i` days. */
  function SumaBruta(t: seq<real>, fechas: seq<InfoDia>, i: nat): real
    requires |t| == 7 && i <= |fechas| && forall j :: 0 <= j < |fechas| ==> fechas[j].diaSemana < 7
  {
    if i == 0 then 0.0 else SumaBruta(t, fechas, i - 1) + t[fechas[i - 1].diaSemana]
  }

  predicate FechasValidas(fechas: seq<InfoDia>)
  {
    forall j :: 0 <= j < |fechas| ==> fechas[j].diaSemana < 7
  }

  /** The raw pass: builds each day's raw categories and adds every raw value to its category's sum. */
  method DiasBrutos(validas: seq<Valida>, tarifas: seq<seq<real>>, fechas: seq<InfoDia>)
    returns (brutos: seq<seq<ValorCategoria>>, sumas: seq<real>)
    requires Tabla(validas, tarifas) && FechasValidas(fechas)
    ensures |brutos| == |fechas| && forall i :: 0 <= i < |fechas| ==> brutos[i] == Brutos(validas, tarifas, fechas[i])
    ensures |sumas| == |validas| && forall c :: 0 <= c < |validas| ==> sumas[c] == SumaBruta(tarifas[c], fechas, |fechas|)
  {
    brutos := [];
    sumas := seq(|validas|, c => 0.0);
    var i := 0;
    while i < |fechas|
      invariant 0 <= i <= |fechas|
      invariant |brutos| == i && forall j :: 0 <= j < i ==> brutos[j] == Brutos(validas, tarifas, fechas[j])
      invariant |sumas| == |validas| && forall c :: 0 <= c < |validas| ==> sumas[c] == SumaBruta(tarifas[c], fechas, i)
    {
      var dia, nuevas := DiaBruto(validas, tarifas, fechas[i], sumas);
      sumas := nuevas;
      brutos := brutos + [dia];
      i := i + 1;
    }
  }

  /** The inner loop of the raw pass over the categories of one day. */
  method DiaBruto(validas: seq<Valida>, tarifas: seq<seq<real>>, info: InfoDia, sumas: seq<real>)
    returns (dia: seq<ValorCategoria>, nuevas: seq<real>)
    requires Tabla(validas, tarifas) && info.diaSemana < 7 && |sumas| == |validas|
    ensures dia == Brutos(validas, tarifas, info)
    ensures |nuevas| == |sumas| && forall c :: 0 <= c < |sumas| ==> nuevas[c] == sumas[c] + tarifas[c][info.diaSemana]
  {
    dia := [];
    nuevas := sumas;
    var c := 0;
    while c < |validas|
      invariant 0 <= c <= |validas| && dia == Brutos(validas, tarifas, info)[..c]
      invariant |nuevas| == |sumas|
      invariant forall j :: 0 <= j < c ==> nuevas[j] == sumas[j] + tarifas[j][info.diaSemana]
      invariant forall j :: c <= j < |sumas| ==> nuevas[j] == sumas[j]
    {
      var tarifa := tarifas[c][info.diaSemana];
      var porcentajeUsado := PctDia(validas[c].porcentajes, info.diaSemana);
      dia := dia + [ValorCategoria(validas[c].nombre, tarifa, porcentajeUsado)];
      nuevas := nuevas[c := nuevas[c] + tarifa];
      c := c + 1;
    }
  }

  // ------------------------------------------------------------ adjusted days

  /** A category's final value on day `i` of `n`: the raw value, plus on the last day the budget minus the raw sum, rounded half up. */
  function ValorFinal(bruto: real, presupuesto: real, sumaBruta: real, i: nat, n: nat): real
  {
    Redondear2(if i == n - 1 then bruto + (presupuesto - sumaBruta) else bruto)
  }

  /** `total_dia_componentes` before rounding: the values of every category but `Total Sede`. */
  function Componentes(vs: seq<ValorCategoria>): real
  {
    if vs == [] then 0.0
    else
      var v := vs[|vs| - 1];
      Componentes(vs[..|vs| - 1]) + (if v.categoria != TOTAL_SEDE then v.valor else 0.0)
  }

  /** One more category adds its value to the day's components unless it is `Total Sede`. */
  lemma ComponentesMas(vs: seq<ValorCategoria>, v: ValorCategoria)
    ensures Componentes(vs + [v]) == Componentes(vs) + (if v.categoria != TOTAL_SEDE then v.valor else 0.0)
  {
    assert (vs + [v])[..|vs|] == vs;
  }

  lemma PrefijoValores(vs: seq<ValorCategoria>, c: nat)
    requires c < |vs|
    ensures vs[..c + 1] == vs[..c] + [vs[c]]
  {
  }

  /** The adjusted categories of day `i`. */
  function Ajustados(validas: seq<Valida>, bruto: seq<ValorCategoria>, sumas: seq<real>, i: nat, n: nat): (r: seq<ValorCategoria>)
    requires |bruto| == |validas| && |sumas| == |validas|
    ensures |r| == |validas|
  {
    seq(|validas|, c requires 0 <= c < |validas| =>
      ValorCategoria(bruto[c].categoria, ValorFinal(bruto[c].valor, validas[c].presupuesto, sumas[c], i, n), bruto[c].porcentajeUsado))
  }

  function DiaAjustado(validas: seq<Valida>, bruto: seq<ValorCategoria>, sumas: seq<real>, info: InfoDia, i: nat, n: nat): (d: DiaPresupuesto)
    requires |bruto| == |validas| && |sumas| == |validas|
    ensures |d.valores| == |validas|
  {
    var vs := Ajustados(validas, bruto, sumas, i, n);
    DiaPresupuesto(info, vs, Redondear2(Componentes(vs)))
  }

  /** The inner loop of the adjustment over the categories of day `i`, which also adds each final value to its category's total. */
  method AjustarDia(validas: seq<Valida>, bruto: seq<ValorCategoria>, sumas: seq<real>, info: InfoDia, i: nat, n: nat, totales: seq<real>)
    returns (dia: DiaPresupuesto, nuevos: seq<real>)
    requires |bruto| == |validas| && |sumas| == |validas| && |totales| == |validas|
    ensures dia == DiaAjustado(validas, bruto, sumas, info, i, n)
    ensures |nuevos| == |totales| && forall c :: 0 <= c < |totales| ==> nuevos[c] == totales[c] + dia.valores[c].valor
  {
    ghost var esperados := Ajustados(validas, bruto, sumas, i, n);
    var valores: seq<ValorCategoria> := [];
    var totalDia := 0.0;
    nuevos := totales;
    var c := 0;
    while c < |validas|
      invariant 0 <= c <= |validas| && valores == esperados[..c]
      invariant totalDia == Componentes(valores)
      invariant |nuevos| == |totales|
      invariant forall j :: 0 <= j < c ==> nuevos[j] == totales[j] + esperados[j].valor
      invariant forall j :: c <= j < |totales| ==> nuevos[j] == totales[j]
    {
      var final := bruto[c].valor;
      if i == n - 1 {
        var diferencia := validas[c].presupuesto - sumas[c];
        final := final + diferencia;
      }
      final := Redondear2(final);
      var v := ValorCategoria(bruto[c].categoria, final, bruto[c].porcentajeUsado);
      assert v == esperados[c];
      ComponentesMas(valores, v);
      PrefijoValores(esperados, c);
      valores := valores + [v];
      nuevos := nuevos[c := nuevos[c] + final];
      if bruto[c].categoria != TOTAL_SEDE {
        totalDia := totalDia + final;
      }
      c := c + 1;
    }
    assert valores == esperados;
    dia := DiaPresupuesto(info, valores, Redondear2(totalDia));
  }

  /** The sum of the adjusted days' `total_dia_componentes`. */
  function SumaDias(dias: seq<DiaPresupuesto>): real
  {
    if dias == [] then 0.0 else SumaDias(dias[..|dias| - 1]) + dias[|dias| - 1].totalComponentes
  }

  /** The sum of category `c`'s final values over the days. */
  function SumaCategoria(dias: seq<DiaPresupuesto>, c: nat): real
    requires forall i :: 0 <= i < |dias| ==> c < |dias[i].valores|
  {
    if dias == [] then 0.0 else SumaCategoria(dias[..|dias| - 1], c) + dias[|dias| - 1].valores[c].valor
  }

  /** One more day adds its values to the category sums and its total to the grand total. */
  lemma SumasMas(dias: seq<DiaPresupuesto>, dia: DiaPresupuesto, m: nat)
    requires forall j :: 0 <= j < |dias| ==> |dias[j].valores| == m
    requires |dia.valores| == m
    ensures SumaDias(dias + [dia]) == SumaDias(dias) + dia.totalComponentes
    ensures forall c :: 0 <= c < m ==> SumaCategoria(dias + [dia], c) == SumaCategoria(dias, c) + dia.valores[c].valor
  {
    assert (dias + [dia])[..|dias|] == dias;
  }

  /** The adjustment pass over every raw day: the adjusted days, the category totals and the grand total, before rounding. */
  method DiasAjustados(validas: seq<Valida>, brutos: seq<seq<ValorCategoria>>, sumas: seq<real>, fechas: seq<InfoDia>, n: nat)
    returns (dias: seq<DiaPresupuesto>, totales: seq<real>, granTotal: real)
    requires |brutos| == |fechas| && |sumas| == |validas|
    requires forall i :: 0 <= i < |brutos| ==> |brutos[i]| == |validas|
    ensures |dias| == |brutos|
    ensures forall i :: 0 <= i < |brutos| ==> dias[i] == DiaAjustado(validas, brutos[i], sumas, fechas[i], i, n)
    ensures forall i :: 0 <= i < |brutos| ==> |dias[i].valores| == |validas|
    ensures |totales| == |validas| && forall c :: 0 <= c < |validas| ==> totales[c] == SumaCategoria(dias, c)
    ensures granTotal == SumaDias(dias)
  {
    dias := [];
    totales := seq(|validas|, c => 0.0);
    granTotal := 0.0;
    var i := 0;
    while i < |brutos|
      invariant 0 <= i <= |brutos| && |dias| == i
      invariant forall j :: 0 <= j < i ==> dias[j] == DiaAjustado(validas, brutos[j], sumas, fechas[j], j, n)
      invariant forall j :: 0 <= j < i ==> |dias[j].valores| == |validas|
      invariant |totales| == |validas| && forall c :: 0 <= c < |validas| ==> totales[c] == SumaCategoria(dias, c)
      invariant granTotal == SumaDias(dias)
    {
      var dia, nuevos := AjustarDia(validas, brutos[i], sumas, fechas[i], i, n, totales);
      SumasMas(dias, dia, |validas|);
      dias := dias + [dia];
      totales := nuevos;
      granTotal := granTotal + dia.totalComponentes;
      i := i + 1;
    }
  }

  /** `totales_finales_por_categoria` once rounded: each valid category's name maps to its rounded total. */
  function MapaTotales(validas: seq<Valida>, totales: seq<real>): (m: map<string, real>)
    requires |totales| == |validas|
  {
    if validas == [] then map[]
    else
      var k := |validas| - 1;
      MapaTotales(validas[..k], totales[..k])[validas[k].nombre := Redondear2(totales[k])]
  }

  /** The final rounding loop over the category totals. */
  method RedondearTotales(validas: seq<Valida>, totales: seq<real>) returns (m: map<string, real>)
    requires |totales| == |validas|
    ensures m == MapaTotales(validas, totales)
  {
    m := map[];
    var c := 0;
    while c < |validas|
      invariant 0 <= c <= |validas| && m == MapaTotales(validas[..c], totales[..c])
    {
      assert validas[..c + 1][..c] == validas[..c] && totales[..c + 1][..c] == totales[..c];
      m := m[validas[c].nombre := Redondear2(totales[c])];
      c := c + 1;
    }
    assert validas[..|validas|] == validas && totales[..|totales|] == totales;
  }

  /** With distinct names, each category's name maps to its own rounded total, and nothing else is a key. */
  lemma {:induction false} MapaTotalesBusqueda(validas: seq<Valida>, totales: seq<real>, c: nat)
    requires |totales| == |validas| && NombresDistintos(validas) && c < |validas|
    ensures validas[c].nombre in MapaTotales(validas, totales)
    ensures MapaTotales(validas, totales)[validas[c].nombre] == Redondear2(totales[c])
    decreases |validas|
  {
    var k := |validas| - 1;
    if c < k {
      MapaTotalesBusqueda(validas[..k], totales[..k], c);
    }
  }

  lemma {:induction false} MapaTotalesClaves(validas: seq<Valida>, totales: seq<real>, nombre: string)
    requires |totales| == |validas|
    ensures nombre in MapaTotales(validas, totales) <==> exists c :: 0 <= c < |validas| && validas[c].nombre == nombre
    decreases |validas|
  {
    if validas != [] {
      var k := |validas| - 1;
      MapaTotalesClaves(validas[..k], totales[..k], nombre);
      if exists c :: 0 <= c < |validas| && validas[c].nombre == nombre {
        var c :| 0 <= c < |validas| && validas[c].nombre == nombre;
        if c < k {
          assert validas[..k][c].nombre == nombre;
        }
      }
      if exists c :: 0 <= c < k && validas[..k][c].nombre == nombre {
        var c :| 0 <= c < k && validas[..k][c].nombre == nombre;
        assert validas[c].nombre == nombre;
      }
    }
  }

  /** The sum of every value of a day, `Total Sede` included. */
  function SumaValores(vs: seq<ValorCategoria>): real
  {
    if vs == [] then 0.0 else SumaValores(vs[..|vs| - 1]) + vs[|vs| - 1].valor
  }

  /** The sum of the `Total Sede` values of a day. */
  function SumaSede(vs: seq<ValorCategoria>): real
  {
    if vs == [] then 0.0
    else SumaSede(vs[..|vs| - 1]) + (if vs[|vs| - 1].categoria == TOTAL_SEDE then vs[|vs| - 1].valor else 0.0)
  }

  /** The components and `Total Sede` split the day's values: the components are everything but `Total Sede`. */
  lemma {:induction false} ComponentesSinSede(vs: seq<ValorCategoria>)
    ensures Componentes(vs) + SumaSede(vs) == SumaValores(vs)
    decreases |vs|
  {
    if vs != [] {
      ComponentesSinSede(vs[..|vs| - 1]);
    }
  }

  /** Changing the value of `Total Sede` leaves the components unchanged. */
  lemma {:induction false} ComponentesIgnoranSede(vs: seq<ValorCategoria>, j: nat, x: real)
    requires j < |vs| && vs[j].categoria == TOTAL_SEDE
    ensures Componentes(vs[j := vs[j].(valor := x)]) == Componentes(vs)
    decreases |vs|
  {
    var k := |vs| - 1;
    var ws := vs[j := vs[j].(valor := x)];
    if j < k {
      assert ws[..k] == vs[..k][j := vs[j].(valor := x)];
      ComponentesIgnoranSede(vs[..k], j, x);
    } else {
      assert ws[..k] == vs[..k];
    }
  }

  // ------------------------------------------------------------ the whole computation

  /** Each category's raw sum over the whole month. */
  function SumasBrutas(validas: seq<Valida>, tarifas: seq<seq<real>>, fechas: seq<InfoDia>): (s: seq<real>)
    requires Tabla(validas, tarifas) && FechasValidas(fechas)
    ensures |s| == |validas|
  {
    seq(|validas|, c requires 0 <= c < |validas| => SumaBruta(tarifas[c], fechas, |fechas|))
  }

  /** The adjusted days for a rate table and the month's dates. */
  function DiasDe(validas: seq<Valida>, tarifas: seq<seq<real>>, fechas: seq<InfoDia>): (dias: seq<DiaPresupuesto>)
    requires Tabla(validas, tarifas) && FechasValidas(fechas)
    ensures |dias| == |fechas|
  {
    var sumas := SumasBrutas(validas, tarifas, fechas);
    seq(|fechas|, i requires 0 <= i < |fechas| => DiaAjustado(validas, Brutos(validas, tarifas, fechas[i]), sumas, fechas[i], i, |fechas|))
  }

  /** The days of the month: the dates from the first day's weekday, the rates from the weekday counts. */
  function Dias(validas: seq<Valida>, anio: int, mes: int): (dias: seq<DiaPresupuesto>)
    requires 1 <= mes <= 12 && AnioValido(anio)
    ensures |dias| == DiasDelMes(anio, mes)
  {
    var n := DiasDelMes(anio, mes);
    var w0 := DiaSemana(anio, mes, 1);
    DiasDe(validas, TablaTarifas(validas, Conteo(w0, n)), InfoDias(w0, n))
  }

  /** Every day of the month holds one value per valid category. */
  lemma DiasValores(validas: seq<Valida>, anio: int, mes: int)
    requires 1 <= mes <= 12 && AnioValido(anio)
    ensures forall i :: 0 <= i < |Dias(validas, anio, mes)| ==> |Dias(validas, anio, mes)[i].valores| == |validas|
  {
  }

  /** The raw pass followed by the adjustment pass computes `DiasDe`. */
  lemma PasadasCompuestas(validas: seq<Valida>, tarifas: seq<seq<real>>, fechas: seq<InfoDia>,
                          brutos: seq<seq<ValorCategoria>>, sumas: seq<real>, dias: seq<DiaPresupuesto>)
    requires Tabla(validas, tarifas) && FechasValidas(fechas)
    requires |brutos| == |fechas| && forall i :: 0 <= i < |fechas| ==> brutos[i] == Brutos(validas, tarifas, fechas[i])
    requires |sumas| == |validas| && forall c :: 0 <= c < |validas| ==> sumas[c] == SumaBruta(tarifas[c], fechas, |fechas|)
    requires |dias| == |brutos|
    requires forall i :: 0 <= i < |brutos| ==> |brutos[i]| == |validas| && dias[i] == DiaAjustado(validas, brutos[i], sumas, fechas[i], i, |fechas|)
    ensures dias == DiasDe(validas, tarifas, fechas)
  {
    assert sumas == SumasBrutas(validas, tarifas, fechas);
  }

  // ------------------------------------------------------------ the budget is met

  /** Every rate of a table is a whole number of hundredths. */
  predicate TarifasCentesimales(tarifas: seq<seq<real>>)
  {
    forall c, w :: 0 <= c < |tarifas| && 0 <= w < |tarifas[c]| ==> Centesimal(tarifas[c][w])
  }

  /** The rates are rounded to hundredths. */
  lemma TablaCentesimal(validas: seq<Valida>, occ: seq<nat>)
    requires |occ| == 7
    ensures TarifasCentesimales(TablaTarifas(validas, occ))
  {
    var t := TablaTarifas(validas, occ);
    forall c, w | 0 <= c < |t| && 0 <= w < |t[c]|
      ensures Centesimal(t[c][w])
    {
      assert t[c][w] == Tarifa(validas[c].presupuesto, PctDia(validas[c].porcentajes, w), occ[w]);
    }
  }

  /** A rate differs from the exact share of its weekday by at most half a hundredth. */
  lemma TarifaCerca(presupuesto: real, pct: real, ocurrencias: nat)
    requires ocurrencias > 0
    ensures -0.005 <= Tarifa(presupuesto, pct, ocurrencias) - presupuesto * (pct / 100.0) / ocurrencias as real <= 0.005
  {
  }

  /** A sum of rates is a whole number of hundredths. */
  lemma {:induction false} SumaBrutaCentesimal(t: seq<real>, fechas: seq<InfoDia>, i: nat)
    requires |t| == 7 && i <= |fechas| && FechasValidas(fechas)
    requires forall w :: 0 <= w < 7 ==> Centesimal(t[w])
    ensures Centesimal(SumaBruta(t, fechas, i))
  {
    if i > 0 {
      SumaBrutaCentesimal(t, fechas, i - 1);
      SumaCentesimal(SumaBruta(t, fechas, i - 1), t[fechas[i - 1].diaSemana]);
    }
  }

  /** The final value of category `c` on day `i`. */
  lemma ValorEnDia(validas: seq<Valida>, tarifas: seq<seq<real>>, fechas: seq<InfoDia>, i: nat, c: nat)
    requires Tabla(validas, tarifas) && FechasValidas(fechas) && i < |fechas| && c < |validas|
    ensures DiasDe(validas, tarifas, fechas)[i].valores[c].valor
            == ValorFinal(tarifas[c][fechas[i].diaSemana], validas[c].presupuesto, SumaBruta(tarifas[c], fechas, |fechas|), i, |fechas|)
  {
    var b := Brutos(validas, tarifas, fechas[i]);
    assert b[c].valor == tarifas[c][fechas[i].diaSemana];
    assert SumasBrutas(validas, tarifas, fechas)[c] == SumaBruta(tarifas[c], fechas, |fechas|);
  }

  /** Before the last day no value is adjusted: the first `k` final values add up to the first `k` raw ones. */
  lemma {:induction false} SumaPrimeros(validas: seq<Valida>, tarifas: seq<seq<real>>, fechas: seq<InfoDia>, c: nat, k: nat)
    requires Tabla(validas, tarifas) && FechasValidas(fechas) && TarifasCentesimales(tarifas)
    requires c < |validas| && k < |fechas|
    ensures SumaCategoria(DiasDe(validas, tarifas, fechas)[..k], c) == SumaBruta(tarifas[c], fechas, k)
  {
    if k > 0 {
      var dias := DiasDe(validas, tarifas, fechas);
      SumaPrimeros(validas, tarifas, fechas, c, k - 1);
      assert dias[..k][..k - 1] == dias[..k - 1];
      ValorEnDia(validas, tarifas, fechas, k - 1, c);
      Redondear2Centesimal(tarifas[c][fechas[k - 1].diaSemana]);
    }
  }

  /** On the last day the rate cancels out: what is left is the budget minus the earlier rates. */
  /** The last day takes what the earlier days left of the budget. */
  lemma UltimoValor(b: real, p: real, previa: real, n: nat)
    requires n >= 1 && Centesimal(p) && Centesimal(previa)
    ensures ValorFinal(b, p, previa + b, n - 1, n) == p - previa
  {
    CuadreUltimo(p, previa, b);
  }

  lemma CuadreUltimo(p: real, previa: real, b: real)
    requires Centesimal(p) && Centesimal(previa)
    ensures Redondear2(b + (p - (previa + b))) == p - previa
  {
    assert b + (p - (previa + b)) == p - previa;
    SumaCentesimal(p, previa);
    Redondear2Centesimal(p - previa);
  }

  /** With a budget in hundredths, the final values of a category add up exactly to its monthly budget. */
  lemma CategoriaCuadra(validas: seq<Valida>, tarifas: seq<seq<real>>, fechas: seq<InfoDia>, c: nat)
    requires Tabla(validas, tarifas) && FechasValidas(fechas) && TarifasCentesimales(tarifas)
    requires c < |validas| && |fechas| >= 1 && Centesimal(validas[c].presupuesto)
    ensures SumaCategoria(DiasDe(validas, tarifas, fechas), c) == validas[c].presupuesto
  {
    var dias := DiasDe(validas, tarifas, fechas);
    var n := |fechas|;
    var t := tarifas[c];
    var previa := SumaBruta(t, fechas, n - 1);
    var b := t[fechas[n - 1].diaSemana];
    SumaPrimeros(validas, tarifas, fechas, c, n - 1);
    ValorEnDia(validas, tarifas, fechas, n - 1, c);
    SumaBrutaCentesimal(t, fechas, n - 1);
    assert SumaBruta(t, fechas, n) == previa + b;
    UltimoValor(b, validas[c].presupuesto, previa, n);
    assert dias[n - 1].valores[c].valor == validas[c].presupuesto - previa;
    assert SumaCategoria(dias, c) == SumaCategoria(dias[..n - 1], c) + dias[n - 1].valores[c].valor;
  }

  /** What the function returns, `None` standing for `(None, None, None)`, and the input dictionary afterwards. */
  function CalculoEsperado(anio: int, mes: int, entradas: seq<Entrada>, catalogo: map<string, seq<Config>>)
    : (r: (Option<Calculo>, seq<Entrada>))
    ensures r.0.None? <==> !(1 <= mes <= 12) || !AnioValido(anio) || Validas(entradas, catalogo) == []
    ensures r.1 == if 1 <= mes <= 12 && AnioValido(anio) then Normalizadas(entradas) else entradas
    ensures r.0.Some? ==> |r.0.value.dias| == DiasDelMes(anio, mes)
  {
    if !(1 <= mes <= 12) || !AnioValido(anio) then (None, entradas)
    else
      var validas := Validas(entradas, catalogo);
      if validas == [] then (None, Normalizadas(entradas))
      else
        var dias := Dias(validas, anio, mes);
        (Some(Calculo(dias, MapaTotales(validas, TotalesDelMes(validas, anio, mes)), Redondear2(SumaDias(dias)))), Normalizadas(entradas))
  }

  /** Each valid category's total over the days of the month, before rounding. */
  function TotalesDelMes(validas: seq<Valida>, anio: int, mes: int): (t: seq<real>)
    requires 1 <= mes <= 12 && AnioValido(anio)
    ensures |t| == |validas|
  {
    var dias := Dias(validas, anio, mes);
    DiasValores(validas, anio, mes);
    seq(|validas|, c requires 0 <= c < |validas| => SumaCategoria(dias, c))
  }

  /** Steps 2 to 6 of the computation for the valid categories of a valid month. */
  method CalcularDias(validas: seq<Valida>, anio: int, mes: int)
    returns (dias: seq<DiaPresupuesto>, totales: seq<real>, granTotal: real)
    requires 1 <= mes <= 12 && AnioValido(anio)
    ensures dias == Dias(validas, anio, mes)
    ensures |totales| == |validas| && forall c :: 0 <= c < |validas| ==> totales[c] == SumaCategoria(dias, c)
    ensures granTotal == SumaDias(dias)
  {
    var n := DiasDelMes(anio, mes);
    var w0 := DiaSemana(anio, mes, 1);
    var occ, fechas := RecorrerMes(w0, n);
    var tarifas := CalcularTarifas(validas, occ);
    var brutos, sumas := DiasBrutos(validas, tarifas, fechas);
    dias, totales, granTotal := DiasAjustados(validas, brutos, sumas, fechas, n);
    PasadasCompuestas(validas, tarifas, fechas, brutos, sumas, dias);
  }

  /**
   * `calcular_presupuesto_con_porcentajes_dinamicos(sede_id, anio, mes, presupuestos_input_por_categoria)`;
   * the store is fixed by `catalogo`.
   */
  method CalcularPresupuesto(anio: int, mes: int, entradas: seq<Entrada>, catalogo: map<string, seq<Config>>)
    returns (r: Option<Calculo>, normalizadas: seq<Entrada>)
    ensures (r, normalizadas) == CalculoEsperado(anio, mes, entradas, catalogo)
  {
    if !(1 <= mes <= 12) {
      return None, entradas;
    }
    if !AnioValido(anio) {
      return None, entradas;
    }
    var validas;
    validas, normalizadas := ValidarCategorias(entradas, catalogo);
    if validas == [] {
      return None, normalizadas;
    }
    var dias, totales, granTotal := CalcularDias(validas, anio, mes);
    var mapa := RedondearTotales(validas, totales);
    assert totales == TotalesDelMes(validas, anio, mes);
    r := Some(Calculo(dias, mapa, Redondear2(granTotal)));
  }

  /** Day `i + 1` of the month, as computed: its date and weekday, and each category's name and percentage in input order. */
  lemma DiaDelMes(validas: seq<Valida>, anio: int, mes: int, i: nat, c: nat)
    requires 1 <= mes <= 12 && AnioValido(anio) && i < DiasDelMes(anio, mes) && c < |validas|
    ensures var d := Dias(validas, anio, mes)[i];
            d.info.dia == i + 1 && d.info.diaSemana == DiaSemana(anio, mes, i + 1)
            && d.info.nombreDia == NOMBRES_DIAS[DiaSemana(anio, mes, i + 1)]
            && |d.valores| == |validas| && d.valores[c].categoria == validas[c].nombre
            && d.valores[c].porcentajeUsado == PctDia(validas[c].porcentajes, DiaSemana(anio, mes, i + 1))
  {
    DiaSemanaDelMes(anio, mes, i);
    DiaConSemana(validas, anio, mes, i, c, DiaSemana(anio, mes, 1), DiaSemana(anio, mes, i + 1));
  }

  /** Day `i + 1` of the month, its weekday `w` given as `i` days after the first day's `w0`. */
  lemma DiaConSemana(validas: seq<Valida>, anio: int, mes: int, i: nat, c: nat, w0: nat, w: nat)
    requires 1 <= mes <= 12 && AnioValido(anio) && i < DiasDelMes(anio, mes) && c < |validas|
    requires w0 == DiaSemana(anio, mes, 1) && w == (w0 + i) % 7
    ensures var d := Dias(validas, anio, mes)[i];
            d.info.dia == i + 1 && d.info.diaSemana == w && d.info.nombreDia == NOMBRES_DIAS[w]
            && |d.valores| == |validas| && d.valores[c].categoria == validas[c].nombre
            && d.valores[c].porcentajeUsado == PctDia(validas[c].porcentajes, w)
  {
    DiaDesde(validas, w0, DiasDelMes(anio, mes), i, c, Dias(validas, anio, mes));
  }

  /** Day `i + 1` of `n` days starting on weekday `w0`: its date and weekday, and category `c`'s name and percentage. */
  lemma DiaDesde(validas: seq<Valida>, w0: nat, n: nat, i: nat, c: nat, dias: seq<DiaPresupuesto>)
    requires i < n && c < |validas|
    requires dias == DiasDe(validas, TablaTarifas(validas, Conteo(w0, n)), InfoDias(w0, n))
    ensures var w := (w0 + i) % 7;
            dias[i].info.dia == i + 1 && dias[i].info.diaSemana == w && dias[i].info.nombreDia == NOMBRES_DIAS[w]
            && |dias[i].valores| == |validas| && dias[i].valores[c].categoria == validas[c].nombre
            && dias[i].valores[c].porcentajeUsado == PctDia(validas[c].porcentajes, w)
  {
    var fechas := InfoDias(w0, n);
    var tarifas := TablaTarifas(validas, Conteo(w0, n));
    assert fechas[i] == InfoDia(i + 1, (w0 + i) % 7, NOMBRES_DIAS[(w0 + i) % 7]);
    assert Brutos(validas, tarifas, fechas[i])[c].categoria == validas[c].nombre;
  }

  /**
   * The budget is met: when the keys are distinct and an entry that passes has a budget in hundredths,
   * the result maps its category to exactly that budget, and its daily values add up to it.
   */
  lemma PresupuestoCuadra(anio: int, mes: int, entradas: seq<Entrada>, catalogo: map<string, seq<Config>>, i: nat)
    requires 1 <= mes <= 12 && AnioValido(anio) && Distintas(entradas)
    requires i < |entradas| && Pasa(entradas[i], catalogo) && Centesimal(Normalizado(entradas[i].monto))
    ensures var r := CalculoEsperado(anio, mes, entradas, catalogo).0;
            r.Some? && entradas[i].categoria in r.value.totales
            && r.value.totales[entradas[i].categoria] == Normalizado(entradas[i].monto)
  {
    var validas := Validas(entradas, catalogo);
    ValidasCompleta(entradas, catalogo, i);
    var c :| 0 <= c < |validas| && validas[c].nombre == entradas[i].categoria;
    ValidasOrigen(entradas, catalogo, c);
    var j :| 0 <= j < |entradas| && validas[c].nombre == entradas[j].categoria
             && validas[c].presupuesto == Normalizado(entradas[j].monto);
    assert j == i;
    ValidasDistintas(entradas, catalogo);
    var n := DiasDelMes(anio, mes);
    var w0 := DiaSemana(anio, mes, 1);
    var tarifas := TablaTarifas(validas, Conteo(w0, n));
    TablaCentesimal(validas, Conteo(w0, n));
    CategoriaCuadra(validas, tarifas, InfoDias(w0, n), c);
    var totales := TotalesDelMes(validas, anio, mes);
    MapaTotalesBusqueda(validas, totales, c);
    Redondear2Centesimal(validas[c].presupuesto);
  }
}

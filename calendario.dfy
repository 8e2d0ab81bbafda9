/**
 * The proleptic Gregorian calendar as Python's `datetime` and `calendar`
 * modules use it: leap years, month lengths and weekdays (Monday = 0).
 */
module Calendario {

  predicate Bisiesto(anio: int)
  {
    anio % 4 == 0 && (anio % 100 != 0 || anio % 400 == 0)
  }

  /** `calendar.monthrange(anio, mes)[1]`. */
  function DiasDelMes(anio: int, mes: int): (n: int)
    requires 1 <= mes <= 12
    ensures 28 <= n <= 31
    ensures n == 29 <==> mes == 2 && Bisiesto(anio)
  {
    if mes == 2 then (if Bisiesto(anio) then 29 else 28)
    else if mes == 4 || mes == 6 || mes == 9 || mes == 11 then 30
    else 31
  }

  /** The years `datetime.date` accepts (`MINYEAR` to `MAXYEAR`). */
  predicate AnioValido(anio: int)
  {
    1 <= anio <= 9999
  }

  /** `date(anio, mes, dia).weekday()`, by Sakamoto's method shifted so that Monday is 0. */
  function DiaSemana(anio: int, mes: int, dia: int): (w: nat)
    requires 1 <= mes <= 12 && anio >= 1
    ensures w < 7
  {
    var t := [0, 3, 2, 5, 0, 3, 5, 1, 4, 6, 2, 4];
    var y := if mes < 3 then anio - 1 else anio;
    ((y + y / 4 - y / 100 + y / 400 + t[mes - 1] + dia) % 7 + 6) % 7
  }

  /** The next day of the month is the next day of the week. */
  lemma DiaSiguiente(anio: int, mes: int, dia: int)
    requires 1 <= mes <= 12 && anio >= 1
    ensures DiaSemana(anio, mes, dia + 1) == (DiaSemana(anio, mes, dia) + 1) % 7
  {
    var t := [0, 3, 2, 5, 0, 3, 5, 1, 4, 6, 2, 4];
    var y := if mes < 3 then anio - 1 else anio;
    var x := y + y / 4 - y / 100 + y / 400 + t[mes - 1] + dia;
    SucesorModulo(x);
  }

  lemma SucesorModulo(x: int)
    ensures ((x + 1) % 7 + 6) % 7 == ((x % 7 + 6) % 7 + 1) % 7
  {
    var q := x / 7;
    var r := x % 7;
    assert x == 7 * q + r;
    assert x + 1 == 7 * q + (r + 1);
    if r == 6 {
      assert (x + 1) % 7 == 0;
    } else {
      assert (x + 1) % 7 == r + 1;
    }
  }

  /** Stepping `i` days from the first of the month with `timedelta` moves the weekday by `i`. */
  lemma {:induction false} DiaSemanaDelMes(anio: int, mes: int, i: nat)
    requires 1 <= mes <= 12 && anio >= 1
    ensures DiaSemana(anio, mes, i + 1) == (DiaSemana(anio, mes, 1) + i) % 7
  {
    if i > 0 {
      DiaSemanaDelMes(anio, mes, i - 1);
      DiaSiguiente(anio, mes, i);
      var w := DiaSemana(anio, mes, 1);
      SumaModulo(w + i - 1);
    }
  }

  lemma SumaModulo(x: int)
    ensures (x % 7 + 1) % 7 == (x + 1) % 7
  {
    var q := x / 7;
    var r := x % 7;
    assert x + 1 == 7 * q + (r + 1);
  }

  /** 1 January 2024 was a Monday. */
  lemma DiasConocidos()
    ensures DiaSemana(2024, 1, 1) == 0
  {
  }
}

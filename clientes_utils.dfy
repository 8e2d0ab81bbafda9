/**
 * `generar_nuevo_codcliente` (`clientes/utils.py`): hands out the next
 * customer code from the stored sequence row (key 1), creating that row with
 * its defaults on first use. The whole call is one transaction: when the
 * range is exhausted it raises and nothing is stored.
 */
module ClientesUtils {
  import opened Resultados
  import opened ClientesModelos

  const LIMITE_ALCANZADO: string := "Se ha alcanzado el límite de códigos disponibles."

  /** `get_or_create(pk=1)`: the stored row, or a fresh one with the defaults. */
  function ObtenerOCrear(fila: Option<Secuencia>): (s: Secuencia)
    ensures fila.Some? ==> s == fila.value
    ensures fila.None? ==> s == SecuenciaInicial()
  {
    if fila.Some? then fila.value else SecuenciaInicial()
  }

  /** One call: the new code and the stored row afterwards. */
  function Generar(fila: Option<Secuencia>): (r: (Result<int>, Option<Secuencia>))
  {
    var s := ObtenerOCrear(fila);
    var nuevo := s.ultimoCodigo + 1;
    if nuevo > s.rangoMaximo then (Err(LIMITE_ALCANZADO), fila)
    else (Ok(nuevo), Some(s.(ultimoCodigo := nuevo)))
  }

  /** A call succeeds exactly when the code after the last one is within the range; it then returns and stores that code, else nothing changes. */
  lemma GenerarContrato(fila: Option<Secuencia>)
    ensures var s := ObtenerOCrear(fila); var r := Generar(fila);
            (r.0.Ok? <==> s.ultimoCodigo + 1 <= s.rangoMaximo)
            && (r.0.Ok? ==> r.0.value == s.ultimoCodigo + 1 && r.1 == Some(Secuencia(r.0.value, s.rangoMaximo)))
            && (r.0.Err? ==> r.0.error == LIMITE_ALCANZADO && r.1 == fila)
  {
  }

  /** The first code ever handed out. */
  lemma PrimerCodigo()
    ensures Generar(None) == (Ok(51500002), Some(Secuencia(51500002, 545000000)))
  {
  }

  /** The codes of `n` successive calls, in order, stopping at the first failure, and the stored row afterwards. */
  function Sucesivos(fila: Option<Secuencia>, n: nat): (r: (seq<int>, Option<Secuencia>))
    decreases n
  {
    if n == 0 then ([], fila)
    else
      var g := Generar(fila);
      if g.0.Err? then ([], fila)
      else
        var resto := Sucesivos(g.1, n - 1);
        ([g.0.value] + resto.0, resto.1)
  }

  predicate Crecientes(xs: seq<int>)
  {
    forall i, j :: 0 <= i < j < |xs| ==> xs[i] < xs[j]
  }

  /**
   * Successive codes are strictly increasing, each above the last code stored before,
   * none above the range's end, and the stored row ends at the last of them.
   */
  lemma {:induction false} SucesivosCrecientes(fila: Option<Secuencia>, n: nat)
    ensures var r := Sucesivos(fila, n); var s := ObtenerOCrear(fila);
            Crecientes(r.0)
            && (forall i :: 0 <= i < |r.0| ==> s.ultimoCodigo < r.0[i] <= s.rangoMaximo)
            && (r.0 != [] ==> r.1 == Some(Secuencia(r.0[|r.0| - 1], s.rangoMaximo)))
            && (r.0 == [] ==> r.1 == fila)
    decreases n
  {
    if n > 0 {
      var g := Generar(fila);
      if g.0.Ok? {
        SucesivosCrecientes(g.1, n - 1);
      }
    }
  }

  /** The stored sequence row, and the generator that updates it in place. */
  class TablaSecuencia {
    var fila: Option<Secuencia>

    constructor (fila0: Option<Secuencia>)
      ensures fila == fila0
    {
      fila := fila0;
    }

    /** `generar_nuevo_codcliente`. */
    method GenerarNuevoCodcliente() returns (r: Result<int>)
      modifies this
      ensures (r, fila) == Generar(old(fila))
    {
      var secuencia := if fila.Some? then fila.value else SecuenciaInicial();
      var nuevoCodigo := secuencia.ultimoCodigo + 1;
      if nuevoCodigo > secuencia.rangoMaximo {
        // the transaction rolls back, a row created on the way included
        return Err(LIMITE_ALCANZADO);
      }
      secuencia := secuencia.(ultimoCodigo := nuevoCodigo);
      fila := Some(secuencia);
      r := Ok(nuevoCodigo);
    }
  }
}

/**
 * `Binnacle` (`SoporteTI/models.py`): a support ticket of the IT desk. Its
 * `save` stamps the moment the ticket was closed, once, the first time it is
 * saved as solved or cancelled. The clock is a parameter.
 */
module Bitacora {
  import opened Resultados

  const PENDIENTE := "Pendiente"
  const EN_PROCESO := "En Proceso"
  const RESUELTO := "Resuelto"
  const CANCELADO := "Cancelado"

  /** `STATUS_CHOICES`: value and label of each state, in declaration order. */
  const ESTADOS: seq<(string, string)> :=
    [(PENDIENTE, PENDIENTE), (EN_PROCESO, EN_PROCESO), (RESUELTO, RESUELTO), (CANCELADO, CANCELADO)]

  /**
   * The declared default is the pair `STATUS_CHOICES[0]`, not its value: a
   * character field stores the pair's text.
   */
  const ESTADO_POR_DEFECTO := "('Pendiente', 'Pendiente')"

  predicate EsEstado(s: string)
  {
    exists i :: 0 <= i < |ESTADOS| && ESTADOS[i].0 == s
  }

  /** The four declared states are the only values of the choices, and the default is none of them. */
  lemma EstadosDeclarados(s: string)
    ensures EsEstado(s) <==> s in {PENDIENTE, EN_PROCESO, RESUELTO, CANCELADO}
    ensures !EsEstado(ESTADO_POR_DEFECTO)
  {
    if s in {PENDIENTE, EN_PROCESO, RESUELTO, CANCELADO} {
      var i := if s == PENDIENTE then 0 else if s == EN_PROCESO then 1 else if s == RESUELTO then 2 else 3;
      assert ESTADOS[i].0 == s;
    }
    assert ESTADO_POR_DEFECTO[0] == '(';
  }

  /** A state that closes the ticket. */
  predicate Cierra(status: string)
  {
    status == RESUELTO || status == CANCELADO
  }

  /**
   * The stamp after a save at time `ahora`: an existing stamp is kept; a
   * missing one is set to `ahora` exactly when the ticket is being closed.
   */
  function Sellar(status: string, sello: Option<int>, ahora: int): (r: Option<int>)
    ensures sello.Some? ==> r == sello
    ensures sello.None? ==> (r.Some? <==> Cierra(status))
    ensures r.Some? && sello.None? ==> r.value == ahora
  {
    if Cierra(status) && sello.None? then Some(ahora) else sello
  }

  /** Open states never set the stamp, whatever the time. */
  lemma AbiertoNoSella(status: string, sello: Option<int>, ahora: int)
    requires status == PENDIENTE || status == EN_PROCESO || status == ESTADO_POR_DEFECTO
    ensures Sellar(status, sello, ahora) == sello
  {
  }

  /** Saving again, at any later time and in any state, keeps the first stamp. */
  lemma SelloEstable(s1: string, s2: string, sello: Option<int>, t1: int, t2: int)
    ensures Sellar(s2, Sellar(s1, sello, t1), t2) == if Sellar(s1, sello, t1).Some? then Sellar(s1, sello, t1) else Sellar(s2, sello, t2)
  {
  }

  /** A ticket; `save` updates it in place. */
  class Binnacle {
    var status: string
    var statusChangedAt: Option<int>

    /** A new ticket takes the declared default state and has no stamp. */
    constructor ()
      ensures status == ESTADO_POR_DEFECTO && statusChangedAt == None
    {
      status := ESTADO_POR_DEFECTO;
      statusChangedAt := None;
    }

    /** `save`: the stamp follows `Sellar`; the state is not touched. */
    method Save(ahora: int)
      modifies this
      ensures status == old(status)
      ensures statusChangedAt == Sellar(old(status), old(statusChangedAt), ahora)
    {
      if (status == RESUELTO || status == CANCELADO) && statusChangedAt.None? {
        statusChangedAt := Some(ahora);
      }
    }
  }
}

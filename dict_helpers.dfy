/**
 * The template filter `get_item` (`presupuesto/templatetags/dict_helpers.py`):
 * `{{ d|get_item:k }}` looks a key up in a dictionary held in a template
 * variable, whatever that variable holds.
 */
module DictHelpers {

  /** A template variable's value: `None`, a number, a string, a list or a dictionary. */
  datatype Valor = Nulo | Numero(n: int) | Texto(s: string) | Lista(xs: seq<Valor>) | Dict(m: map<Valor, Valor>)

  /** `dictionary.get(key)` when the value is a dictionary, `None` otherwise. */
  function GetItem(dictionary: Valor, key: Valor): (r: Valor)
    ensures dictionary.Dict? && key in dictionary.m ==> r == dictionary.m[key]
    ensures dictionary.Dict? && key !in dictionary.m ==> r == Nulo
    ensures !dictionary.Dict? ==> r == Nulo
  {
    if dictionary.Dict? then (if key in dictionary.m then dictionary.m[key] else Nulo) else Nulo
  }

  /** Reading back a key just stored gives its value; the other keys read as before. */
  lemma GetItemTrasGuardar(m: map<Valor, Valor>, k: Valor, v: Valor, otra: Valor)
    ensures GetItem(Dict(m[k := v]), k) == v
    ensures otra != k ==> GetItem(Dict(m[k := v]), otra) == GetItem(Dict(m), otra)
  {
  }

  /** A lookup answers something other than `None` only for a dictionary that holds the key with a non-`None` value. */
  lemma GetItemEncontrado(d: Valor, k: Valor)
    ensures GetItem(d, k) != Nulo <==> d.Dict? && k in d.m && d.m[k] != Nulo
  {
  }
}

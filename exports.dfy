/**
 * The spreadsheet export of suggestion lines (`Compras/services/exports.py`):
 * `_cellify` turns a Python value into one of the kinds a cell takes,
 * `_row_from_linea` lays a line out under the 39 headers, and
 * `export_lines_to_xlsx` writes the header row, one row per line (which
 * `openpyxl` checks and cuts as it stores it), and a width per column.
 *
 * Dates carry their year, month and day, times the seconds since midnight,
 * and a time-zone offset is in seconds east of UTC. The conversion of an
 * aware date-time to the server's wall clock depends on the zone rules, so
 * it is a parameter. A line is its attribute dictionary, so
 * `getattr(ln, name, default)` is a map lookup.
 */
module Exports {
  import opened Resultados
  import opened Textos

  /** The Python values a line attribute can hold; `repr` is what `str()` gives where the model does not compute it. */
  datatype Valor =
    | Nada
    | Texto(s: string)
    | Entero(i: int)
    | Flotante(x: real, repr: string)
    | Booleano(b: bool)
    | Decimal(d: real, repr: string)
    | FechaHora(anio: int, mes: int, dia: int, segundos: int, zona: Option<int>)
    | Fecha(anio: int, mes: int, dia: int)
    | Hora(segundos: int, zona: Option<int>)
    | Modelo(texto: string)
    | Consulta(textos: seq<string>, repr: string)
    | Coleccion(elementos: seq<Valor>, repr: string)
    | Otro(repr: string)

  // ------------------------------------------------------------ str()

  /** A wall-clock reading: date and seconds since midnight. */
  datatype Reloj = Reloj(anio: int, mes: int, dia: int, segundos: int)

  /** The server's wall clock for an instant read on a clock `zona` seconds east of UTC. */
  type ALocal = (Reloj, int) -> Reloj

  function Ceros(n: int, ancho: nat): string
  {
    if n >= 0 then CerosIzquierda(n, ancho) else IntATexto(n)
  }

  function TextoFecha(anio: int, mes: int, dia: int): string
  {
    Ceros(anio, 4) + "-" + Ceros(mes, 2) + "-" + Ceros(dia, 2)
  }

  function TextoHora(segundos: int): string
  {
    Ceros(segundos / 3600, 2) + ":" + Ceros(segundos % 3600 / 60, 2) + ":" + Ceros(segundos % 60, 2)
  }

  /** `+HH:MM` / `-HH:MM` after an aware value. */
  function TextoZona(zona: Option<int>): string
  {
    if zona.None? then ""
    else
      var a := if zona.value < 0 then -zona.value else zona.value;
      (if zona.value < 0 then "-" else "+") + Ceros(a / 3600, 2) + ":" + Ceros(a % 3600 / 60, 2)
  }

  /** Python's `str()` of a value (whole seconds only). */
  function Str(v: Valor): string
  {
    match v
    case Nada => "None"
    case Texto(s) => s
    case Entero(i) => IntATexto(i)
    case Flotante(_, r) => r
    case Booleano(b) => if b then "True" else "False"
    case Decimal(_, r) => r
    case FechaHora(a, m, d, s, z) => TextoFecha(a, m, d) + " " + TextoHora(s) + TextoZona(z)
    case Fecha(a, m, d) => TextoFecha(a, m, d)
    case Hora(s, z) => TextoHora(s) + TextoZona(z)
    case Modelo(t) => t
    case Consulta(_, r) => r
    case Coleccion(_, r) => r
    case Otro(r) => r
  }

  // ------------------------------------------------------------ _cellify

  /**
   * The kinds of value a cell takes once cellified: no `None`, no time
   * zone, nothing but scalars, dates and text. Whether a text is accepted
   * is decided when the row is appended (`Anexar`).
   */
  predicate Excel(v: Valor)
  {
    match v
    case Texto(_) => true
    case Entero(_) => true
    case Flotante(_, _) => true
    case Booleano(_) => true
    case Decimal(_, _) => true
    case FechaHora(_, _, _, _, z) => z.None?
    case Fecha(_, _, _) => true
    case Hora(_, z) => z.None?
    case _ => false
  }

  /** `timezone.localtime(dt).replace(tzinfo=None)`. */
  function Naive(a: int, m: int, d: int, s: int, zona: int, local: ALocal): (r: Valor)
    ensures r.FechaHora? && r.zona.None?
  {
    var w := local(Reloj(a, m, d, s), zona);
    FechaHora(w.anio, w.mes, w.dia, w.segundos, None)
  }

  /** `_cellify(v)`; joining a collection whose elements do not all become text raises `TypeError`. */
  function Cellify(v: Valor, local: ALocal): (r: Result<Valor>)
    decreases v
  {
    match v
    case Nada => Ok(Texto(""))
    case Texto(_) => Ok(v)
    case Entero(_) => Ok(v)
    case Flotante(_, _) => Ok(v)
    case Booleano(_) => Ok(v)
    case Decimal(_, _) => Ok(v)
    case FechaHora(a, m, d, s, z) => if z.Some? then Ok(Naive(a, m, d, s, z.value, local)) else Ok(v)
    case Fecha(_, _, _) => Ok(v)
    case Hora(s, _) => Ok(Hora(s, None))
    case Modelo(t) => Ok(Texto(t))
    case Consulta(ts, _) => Ok(Texto(Join(ts, ", ")))
    case Coleccion(es, _) =>
      var cs := CellifyTodos(es, local);
      if cs.Err? then Err(cs.error) else
      if forall i :: 0 <= i < |cs.value| ==> cs.value[i].Texto? then Ok(Texto(Join(TextosDe(cs.value), ", ")))
      else Err("TypeError")
    case Otro(r) => Ok(Texto(r))
  }

  /** `map(_cellify, es)` as far as `join` consumes it: the first failure propagates. */
  function CellifyTodos(es: seq<Valor>, local: ALocal): (r: Result<seq<Valor>>)
    ensures r.Ok? ==> |r.value| == |es|
    decreases es
  {
    if es == [] then Ok([])
    else
      var c := Cellify(es[0], local);
      if c.Err? then Err(c.error)
      else
        var resto := CellifyTodos(es[1..], local);
        if resto.Err? then resto else Ok([c.value] + resto.value)
  }

  function TextosDe(cs: seq<Valor>): (r: seq<string>)
    requires forall i :: 0 <= i < |cs| ==> cs[i].Texto?
    ensures |r| == |cs| && forall i :: 0 <= i < |cs| ==> r[i] == cs[i].s
  {
    if cs == [] then [] else [cs[0].s] + TextosDe(cs[1..])
  }

  /** Whatever `_cellify` returns is of a kind a cell takes. */
  lemma {:induction false} CellifyExcel(v: Valor, local: ALocal)
    ensures Cellify(v, local).Ok? ==> Excel(Cellify(v, local).value)
  {
  }

  /** A value Excel accepts already is left as it is. */
  lemma CellifyFijo(v: Valor, local: ALocal)
    requires Excel(v)
    ensures Cellify(v, local) == Ok(v)
  {
  }

  /** So `_cellify` is idempotent. */
  lemma CellifyIdempotente(v: Valor, local: ALocal)
    requires Cellify(v, local).Ok?
    ensures Cellify(Cellify(v, local).value, local) == Cellify(v, local)
  {
    CellifyExcel(v, local);
    CellifyFijo(Cellify(v, local).value, local);
  }

  /** An aware date-time becomes the server's wall-clock reading of the same moment, without a zone. */
  lemma CellifyHoraLocal(a: int, m: int, d: int, s: int, z: int, local: ALocal)
    ensures var w := local(Reloj(a, m, d, s), z);
            Cellify(FechaHora(a, m, d, s, Some(z)), local) == Ok(FechaHora(w.anio, w.mes, w.dia, w.segundos, None))
  {
  }

  /** `map(_cellify, es)` goes through exactly when every element cellifies, and then holds their results. */
  lemma {:induction false} CellifyTodosOk(es: seq<Valor>, local: ALocal)
    ensures CellifyTodos(es, local).Ok? <==> forall i :: 0 <= i < |es| ==> Cellify(es[i], local).Ok?
    ensures CellifyTodos(es, local).Ok? ==> forall i :: 0 <= i < |es| ==> CellifyTodos(es, local).value[i] == Cellify(es[i], local).value
    decreases es
  {
    if es != [] {
      CellifyTodosOk(es[1..], local);
      assert forall i :: 0 <= i < |es| - 1 ==> es[1..][i] == es[i + 1];
    }
  }

  /**
   * A collection is joined exactly when every element cellifies to text;
   * a number in a list, for one, makes the join raise.
   */
  lemma ColeccionUnida(es: seq<Valor>, repr: string, local: ALocal)
    ensures Cellify(Coleccion(es, repr), local).Ok?
            <==> forall i :: 0 <= i < |es| ==> Cellify(es[i], local).Ok? && Cellify(es[i], local).value.Texto?
  {
    CellifyTodosOk(es, local);
  }

  lemma ListaConNumero(n: int, local: ALocal)
    ensures Cellify(Coleccion([Entero(n)], "[" + IntATexto(n) + "]"), local) == Err("TypeError")
  {
    var es := [Entero(n)];
    assert es[1..] == [];
    assert CellifyTodos(es[1..], local) == Ok([]);
    assert [es[0]] + [] == es;
    assert CellifyTodos(es, local) == Ok(es);
    assert !es[0].Texto?;
  }

  // ------------------------------------------------------------ _row_from_linea

  /** The attributes of a suggestion line that the export reads. */
  datatype Atributo =
    | Proveedor | Marca | CodAlmacen | NombreAlmacen | CodigoArticulo | Referencia | Descripcion
    | Departamento | Seccion | Familia | Subfamilia | Tipo | Clasificacion | StockActual | StockMinimo
    | StockMaximo | LeadTimeDias | StockSeguridad | UdsCompraBase | UdsCompraMult | Embalaje
    | UltimoCosto | SugeridoBase | FactorAlmacen | SugeridoCalculado | CajasCalculadas | CostoLinea
    | SugeridoInterno | ComentarioInterno | ContinuidadActivo | NuevoSugeridoProv | DescuentoProvPct
    | DescuentoProvPct2 | DescuentoProvPct3 | NuevoNombreProv | ObservacionesProv | EstadoLinea
    | Creado | Actualizado | Vendedor

  /** A suggestion line as its attribute dictionary. */
  type Linea = map<Atributo, Valor>

  /** `getattr(ln, nombre, defecto)`. */
  function Attr(ln: Linea, nombre: Atributo, defecto: Valor): Valor
  {
    if nombre in ln then ln[nombre] else defecto
  }

  /** `ln.creado.date() if ln.creado else None`: the date of a date-time, on its own wall clock. */
  function SoloFecha(v: Valor): Valor
  {
    if v.FechaHora? then Fecha(v.anio, v.mes, v.dia) else Nada
  }

  const HEADERS: seq<string> := [
    "Proveedor", "Marca", "Almacén", "Código", "Referencia", "Descripción",
    "Departamento", "Sección", "Familia", "Subfamilia", "Tipo",
    "Clasificación",
    "Stock actual", "Stock mínimo", "Stock máximo", "Lead time (días)", "Stock seguridad",
    "Uds compra base", "Uds compra mult", "Embalaje",
    "Último costo",
    "Sugerido base", "Factor almacén", "Sugerido calculado", "Cajas calculadas",
    "Costo línea",
    "Sugerido interno", "Comentario interno",
    "Continuidad activo", "Nuevo sugerido prov", "Desc. prov %", "Desc. prov % 2", "Desc. prov % 3",
    "Nuevo nombre prov", "Observaciones prov",
    "Estado línea",
    "Creado", "Actualizado",
    "Vendedor"]

  /** Where a cell's value comes from. */
  datatype Origen = Campo(nombre: Atributo, defecto: Valor) | AlmacenCodNombre | FechaDe(nombre: Atributo)

  /** The cells of `_row_from_linea`, in its order: each attribute with its `getattr` default. */
  const COLUMNAS: seq<Origen> := [
    Campo(Proveedor, Texto("")), Campo(Marca, Texto("")), AlmacenCodNombre,
    Campo(CodigoArticulo, Texto("")), Campo(Referencia, Texto("")), Campo(Descripcion, Texto("")),
    Campo(Departamento, Texto("")), Campo(Seccion, Texto("")), Campo(Familia, Texto("")),
    Campo(Subfamilia, Texto("")), Campo(Tipo, Texto("")), Campo(Clasificacion, Texto("")),
    Campo(StockActual, Entero(0)), Campo(StockMinimo, Entero(0)), Campo(StockMaximo, Entero(0)),
    Campo(LeadTimeDias, Entero(0)), Campo(StockSeguridad, Entero(0)),
    Campo(UdsCompraBase, Entero(1)), Campo(UdsCompraMult, Entero(1)), Campo(Embalaje, Entero(1)),
    Campo(UltimoCosto, Entero(0)),
    Campo(SugeridoBase, Entero(0)), Campo(FactorAlmacen, Entero(1)), Campo(SugeridoCalculado, Entero(0)),
    Campo(CajasCalculadas, Entero(0)),
    Campo(CostoLinea, Entero(0)),
    Campo(SugeridoInterno, Entero(0)), Campo(ComentarioInterno, Texto("")),
    Campo(ContinuidadActivo, Booleano(true)), Campo(NuevoSugeridoProv, Entero(0)),
    Campo(DescuentoProvPct, Entero(0)), Campo(DescuentoProvPct2, Entero(0)), Campo(DescuentoProvPct3, Entero(0)),
    Campo(NuevoNombreProv, Texto("")), Campo(ObservacionesProv, Texto("")),
    Campo(EstadoLinea, Texto("")),
    FechaDe(Creado), FechaDe(Actualizado),
    Campo(Vendedor, Texto(""))]

  /** The warehouse cell's text: `f"{cod_almacen}-{nombre_almacen}"`. */
  function CodNombre(ln: Linea): string
  {
    Str(Attr(ln, CodAlmacen, Texto(""))) + "-" + Str(Attr(ln, NombreAlmacen, Texto("")))
  }

  function Celda(ln: Linea, o: Origen, local: ALocal): Result<Valor>
  {
    match o
    case Campo(n, d) => Cellify(Attr(ln, n, d), local)
    case AlmacenCodNombre => Cellify(Texto(CodNombre(ln)), local)
    case FechaDe(n) => Cellify(SoloFecha(Attr(ln, n, Nada)), local)
  }

  const N_COLUMNAS: nat := 39

  function Celdas(ln: Linea, local: ALocal): (r: seq<Result<Valor>>)
    ensures |r| == N_COLUMNAS
  {
    assert |COLUMNAS| == N_COLUMNAS;
    seq(N_COLUMNAS, i requires 0 <= i < N_COLUMNAS => Celda(ln, COLUMNAS[i], local))
  }

  /** The row has exactly one cell per header, and the third is `cod-nombre` of the warehouse. */
  lemma FilaAlineada(ln: Linea, local: ALocal)
    ensures |Celdas(ln, local)| == |HEADERS|
    ensures HEADERS[2] == "Almacén" && Celdas(ln, local)[2] == Ok(Texto(CodNombre(ln)))
  {
    assert COLUMNAS[2] == AlmacenCodNombre;
  }

  /** A text warehouse code and name give the cell `cod-nombre`. */
  lemma CeldaAlmacen(ln: Linea, cod: string, nombre: string, local: ALocal)
    requires CodAlmacen in ln && NombreAlmacen in ln
    requires ln[CodAlmacen] == Texto(cod) && ln[NombreAlmacen] == Texto(nombre)
    ensures Celdas(ln, local)[2] == Ok(Texto(cod + "-" + nombre))
  {
    FilaAlineada(ln, local);
  }

  /** The list literal is built left to right: the first cell that raises stops the row. */
  function Reunir<T>(cs: seq<Result<T>>): (r: Result<seq<T>>)
    ensures r.Ok? <==> forall i :: 0 <= i < |cs| ==> cs[i].Ok?
    ensures r.Ok? ==> |r.value| == |cs| && forall i :: 0 <= i < |cs| ==> r.value[i] == cs[i].value
    ensures r.Err? ==> exists i :: 0 <= i < |cs| && cs[i] == Err(r.error) && forall j :: 0 <= j < i ==> cs[j].Ok?
  {
    if cs == [] then Ok([])
    else if cs[0].Err? then Err(cs[0].error)
    else
      var resto := Reunir(cs[1..]);
      if resto.Err? then
        ghost var i :| 0 <= i < |cs[1..]| && cs[1..][i] == Err(resto.error) && forall j :: 0 <= j < i ==> cs[1..][j].Ok?;
        assert cs[i + 1] == Err(resto.error);
        resto
      else Ok([cs[0].value] + resto.value)
  }

  /** `_row_from_linea(ln)`: one Excel value per header, unless a cell raises. */
  function FilaDe(ln: Linea, local: ALocal): (r: Result<seq<Valor>>)
    ensures r.Ok? ==> |r.value| == N_COLUMNAS && forall i :: 0 <= i < |r.value| ==> Excel(r.value[i])
  {
    var cs := Celdas(ln, local);
    var r := Reunir(cs);
    if r.Ok? then
      assert forall i :: 0 <= i < |r.value| ==> Excel(r.value[i]) by {
        forall i | 0 <= i < |r.value| ensures Excel(r.value[i]) {
          CeldaExcel(ln, COLUMNAS[i], local);
        }
      }
      r
    else r
  }

  lemma CeldaExcel(ln: Linea, o: Origen, local: ALocal)
    ensures Celda(ln, o, local).Ok? ==> Excel(Celda(ln, o, local).value)
  {
    match o
    case Campo(n, d) => CellifyExcel(Attr(ln, n, d), local);
    case AlmacenCodNombre =>
    case FechaDe(n) => CellifyExcel(SoloFecha(Attr(ln, n, Nada)), local);
  }

  // ------------------------------------------------------------ ws.append

  /** The longest text a cell keeps: `openpyxl` cuts a longer one without a word. */
  const MAX_TEXTO := 32767
  const ERROR_CARACTER := "IllegalCharacterError"

  /** The control characters `openpyxl` refuses in a cell: U+0000 to U+0008, U+000B, U+000C, U+000E to U+001F. */
  predicate Ilegal(c: char)
  {
    c <= '\U{0008}' || c == '\U{000B}' || c == '\U{000C}' || ('\U{000E}' <= c && c <= '\U{001F}')
  }

  /** The text a cell keeps: its first 32767 characters. */
  function Recortado(t: string): (r: string)
    ensures r <= t && |r| <= MAX_TEXTO
    ensures |t| <= MAX_TEXTO ==> r == t
    ensures |t| > MAX_TEXTO ==> |r| == MAX_TEXTO
  {
    if |t| <= MAX_TEXTO then t else t[..MAX_TEXTO]
  }

  /** A text `openpyxl` accepts: the part it keeps holds no refused control character. */
  predicate TextoAdmitido(t: string)
  {
    forall i :: 0 <= i < |Recortado(t)| ==> !Ilegal(Recortado(t)[i])
  }

  /** The text is cut first and checked after, so a refused character past the cut goes unnoticed. */
  lemma CorteAntesDeRevisar(t: string, c: char)
    requires |t| == MAX_TEXTO && TextoAdmitido(t)
    ensures TextoAdmitido(t + [c]) && Recortado(t + [c]) == t
  {
    assert Recortado(t) == t;
    assert (t + [c])[..MAX_TEXTO] == t;
    assert Recortado(t + [c]) == t;
  }

  /** A refused character within the kept part makes the text refused. */
  lemma TextoRechazado(t: string, i: nat)
    requires i < |t| && i < MAX_TEXTO && Ilegal(t[i])
    ensures !TextoAdmitido(t)
  {
    assert Recortado(t)[i] == t[i];
  }

  predicate Admitido(v: Valor)
  {
    !v.Texto? || TextoAdmitido(v.s)
  }

  predicate FilaAdmitida(f: seq<Valor>)
  {
    forall j :: 0 <= j < |f| ==> Admitido(f[j])
  }

  /** The value a cell stores: a text is cut, anything else kept. */
  function Guardado(v: Valor): (r: Valor)
    ensures v.Texto? ==> r == Texto(Recortado(v.s))
    ensures !v.Texto? ==> r == v
  {
    if v.Texto? then Texto(Recortado(v.s)) else v
  }

  function GuardarFila(f: seq<Valor>): (r: seq<Valor>)
    ensures |r| == |f| && forall j :: 0 <= j < |f| ==> r[j] == Guardado(f[j])
  {
    seq(|f|, j requires 0 <= j < |f| => Guardado(f[j]))
  }

  /**
   * `ws.append(row)` for a row as `_row_from_linea` built it: the error of
   * building it, `IllegalCharacterError` when a cell's text is refused, or
   * the row as the cells store it.
   */
  function Anexar(f: Result<seq<Valor>>): (r: Result<seq<Valor>>)
    ensures f.Err? ==> r == f
    ensures f.Ok? && !FilaAdmitida(f.value) ==> r == Err(ERROR_CARACTER)
    ensures r.Ok? <==> f.Ok? && FilaAdmitida(f.value)
    ensures r.Ok? ==> r.value == GuardarFila(f.value)
  {
    if f.Err? then f
    else if FilaAdmitida(f.value) then Ok(GuardarFila(f.value))
    else Err(ERROR_CARACTER)
  }

  /** A row whose texts are short and free of control characters is stored as it is. */
  lemma AnexarSinCambios(f: seq<Valor>)
    requires forall j :: 0 <= j < |f| && f[j].Texto? ==> |f[j].s| <= MAX_TEXTO && forall i :: 0 <= i < |f[j].s| ==> !Ilegal(f[j].s[i])
    ensures Anexar(Ok(f)) == Ok(f)
  {
    assert GuardarFila(f) == f;
  }

  // ------------------------------------------------------------ export_lines_to_xlsx

  /** The header row. */
  function Cabecera(): (r: seq<Valor>)
    ensures |r| == |HEADERS| == N_COLUMNAS && forall i :: 0 <= i < |r| ==> r[i] == Texto(HEADERS[i])
  {
    seq(|HEADERS|, i requires 0 <= i < |HEADERS| => Texto(HEADERS[i]))
  }

  /** `len(str(c.value)) if c.value is not None else 0`. */
  function Longitud(v: Valor): nat
  {
    if v.Nada? then 0 else |Str(v)|
  }

  /** The lengths of column `j`, one per row. */
  function Longitudes(hoja: seq<seq<Valor>>, j: nat): (ls: seq<nat>)
    requires forall f :: f in hoja ==> j < |f|
    ensures |ls| == |hoja|
  {
    if hoja == [] then [] else Longitudes(hoja[..|hoja| - 1], j) + [Longitud(hoja[|hoja| - 1][j])]
  }

  lemma {:induction false} LongitudesIndice(hoja: seq<seq<Valor>>, j: nat, i: nat)
    requires forall f :: f in hoja ==> j < |f|
    requires i < |hoja|
    ensures Longitudes(hoja, j)[i] == Longitud(hoja[i][j])
    decreases |hoja|
  {
    var n := |hoja| - 1;
    if i < n {
      assert forall f :: f in hoja[..n] ==> f in hoja;
      LongitudesIndice(hoja[..n], j, i);
    }
  }

  /** `max(...)` of a column's lengths (0 for no rows). */
  function Maximo(ls: seq<nat>): (m: nat)
    ensures forall i :: 0 <= i < |ls| ==> ls[i] <= m
  {
    if ls == [] then 0
    else
      var previo := Maximo(ls[..|ls| - 1]);
      var l := ls[|ls| - 1];
      if |ls| == 1 || l > previo then l else previo
  }

  /** The maximum is the length of some cell of the column. */
  lemma {:induction false} MaximoAlcanzado(ls: seq<nat>)
    requires ls != []
    ensures exists i :: 0 <= i < |ls| && ls[i] == Maximo(ls)
  {
    var n := |ls| - 1;
    if n > 0 && ls[n] <= Maximo(ls[..n]) {
      MaximoAlcanzado(ls[..n]);
      var i :| 0 <= i < n && ls[..n][i] == Maximo(ls[..n]);
      assert ls[i] == Maximo(ls);
    } else {
      assert ls[n] == Maximo(ls);
    }
  }

  /** `min(max(10, max_len + 2), 60)`. */
  function Ancho(masLarga: nat): (w: int)
    ensures 10 <= w <= 60
    ensures masLarga + 2 <= 60 ==> masLarga + 2 <= w
    ensures w == 60 || w == 10 || w == masLarga + 2
  {
    var a := if masLarga + 2 > 10 then masLarga + 2 else 10;
    if a < 60 then a else 60
  }

  datatype Hoja = Hoja(filas: seq<seq<Valor>>, anchos: seq<int>)

  /** The column widths: every cell fits its column unless that column is capped at 60. */
  lemma AnchosCubren(hoja: seq<seq<Valor>>, j: nat, i: nat)
    requires forall f :: f in hoja ==> j < |f|
    requires i < |hoja|
    ensures Ancho(Maximo(Longitudes(hoja, j))) == 60 || Longitud(hoja[i][j]) + 2 <= Ancho(Maximo(Longitudes(hoja, j)))
  {
    LongitudesIndice(hoja, j, i);
    MaximoCubre(Longitudes(hoja, j), i);
  }

  lemma MaximoCubre(ls: seq<nat>, i: nat)
    requires i < |ls|
    ensures Ancho(Maximo(ls)) == 60 || ls[i] + 2 <= Ancho(Maximo(ls))
  {
  }

  /** The loop behind `max(len(...) for c in col)`. */
  method AnchoColumna(hoja: seq<seq<Valor>>, j: nat) returns (w: int)
    requires forall f :: f in hoja ==> j < |f|
    ensures w == Ancho(Maximo(Longitudes(hoja, j)))
  {
    var m := 0;
    var i := 0;
    PrefijoCabe(hoja, j, 0);
    while i < |hoja|
      invariant 0 <= i <= |hoja|
      invariant forall f :: f in hoja[..i] ==> j < |f|
      invariant m == Maximo(Longitudes(hoja[..i], j))
    {
      var l := Longitud(hoja[i][j]);
      MaximoPaso(hoja, j, i);
      if i == 0 || l > m {
        m := l;
      }
      i := i + 1;
    }
    assert hoja[..|hoja|] == hoja;
    w := Ancho(m);
  }

  lemma PrefijoCabe(hoja: seq<seq<Valor>>, j: nat, i: nat)
    requires forall f :: f in hoja ==> j < |f|
    requires i <= |hoja|
    ensures forall f :: f in hoja[..i] ==> j < |f|
  {
  }

  /** One more row: the running maximum takes its cell's length if it is the first or a longer one. */
  lemma MaximoPaso(hoja: seq<seq<Valor>>, j: nat, i: nat)
    requires forall f :: f in hoja ==> j < |f|
    requires i < |hoja|
    ensures forall f :: f in hoja[..i + 1] ==> j < |f|
    ensures forall f :: f in hoja[..i] ==> j < |f|
    ensures var m := Maximo(Longitudes(hoja[..i], j));
            var l := Longitud(hoja[i][j]);
            Maximo(Longitudes(hoja[..i + 1], j)) == if i == 0 || l > m then l else m
  {
    PrefijoCabe(hoja, j, i);
    PrefijoCabe(hoja, j, i + 1);
    var ls := Longitudes(hoja[..i], j);
    var l := Longitud(hoja[i][j]);
    assert hoja[..i + 1][..i] == hoja[..i];
    assert Longitudes(hoja[..i + 1], j) == ls + [l];
    assert (ls + [l])[..|ls|] == ls;
  }

  /**
   * The loop of `export_lines_to_xlsx` for a row builder `fila` whose rows
   * have one cell per header: the header row, one row per line as its
   * cells store it (the first line whose row raises, in building or in
   * `ws.append`, aborts the export), then one width per column.
   */
  method EscribirHoja(lineas: seq<Linea>, fila: Linea -> Result<seq<Valor>>) returns (r: Result<Hoja>)
    requires forall ln :: fila(ln).Ok? ==> |fila(ln).value| == N_COLUMNAS
    ensures r.Err? ==> exists i :: 0 <= i < |lineas| && Anexar(fila(lineas[i])) == Err(r.error)
                                   && forall k :: 0 <= k < i ==> Anexar(fila(lineas[k])).Ok?
    ensures r.Ok? ==> forall i :: 0 <= i < |lineas| ==> Anexar(fila(lineas[i])).Ok?
    ensures r.Ok? ==> |r.value.filas| == |lineas| + 1 && r.value.filas[0] == Cabecera()
                      && forall i :: 0 <= i < |lineas| ==> r.value.filas[i + 1] == Anexar(fila(lineas[i])).value
    ensures r.Ok? ==> |r.value.anchos| == N_COLUMNAS
                      && (forall f :: f in r.value.filas ==> |f| == N_COLUMNAS)
                      && forall j :: 0 <= j < N_COLUMNAS ==> r.value.anchos[j] == Ancho(Maximo(Longitudes(r.value.filas, j)))
  {
    var hoja := [Cabecera()];
    var i := 0;
    while i < |lineas|
      invariant 0 <= i <= |lineas|
      invariant forall k :: 0 <= k < i ==> Anexar(fila(lineas[k])).Ok?
      invariant |hoja| == i + 1 && hoja[0] == Cabecera()
      invariant forall k :: 0 <= k < i ==> hoja[k + 1] == Anexar(fila(lineas[k])).value
    {
      var f := Anexar(fila(lineas[i]));
      if f.Err? {
        return Err(f.error);
      }
      hoja := hoja + [f.value];
      i := i + 1;
    }
    forall k | 0 <= k < |hoja| ensures |hoja[k]| == N_COLUMNAS {
      if k > 0 {
        assert hoja[k] == Anexar(fila(lineas[k - 1])).value;
      }
    }
    var anchos := Anchos(hoja);
    r := Ok(Hoja(hoja, anchos));
  }

  /** The widths of the first `n` columns. */
  function AnchosDe(hoja: seq<seq<Valor>>, n: nat): (r: seq<int>)
    requires forall f :: f in hoja ==> n <= |f|
    ensures |r| == n
  {
    if n == 0 then [] else AnchosDe(hoja, n - 1) + [Ancho(Maximo(Longitudes(hoja, n - 1)))]
  }

  lemma {:induction false} AnchosDeIndice(hoja: seq<seq<Valor>>, n: nat, j: nat)
    requires forall f :: f in hoja ==> n <= |f|
    requires j < n
    ensures AnchosDe(hoja, n)[j] == Ancho(Maximo(Longitudes(hoja, j)))
  {
    if j < n - 1 {
      AnchosDeIndice(hoja, n - 1, j);
    }
  }

  /** `for col in ws.columns`: one width per column of the sheet. */
  method Anchos(hoja: seq<seq<Valor>>) returns (anchos: seq<int>)
    requires forall f :: f in hoja ==> |f| == N_COLUMNAS
    ensures |anchos| == N_COLUMNAS
    ensures forall j :: 0 <= j < N_COLUMNAS ==> anchos[j] == Ancho(Maximo(Longitudes(hoja, j)))
  {
    anchos := [];
    var j := 0;
    while j < N_COLUMNAS
      invariant 0 <= j <= N_COLUMNAS && anchos == AnchosDe(hoja, j)
    {
      var w := AnchoColumna(hoja, j);
      anchos := anchos + [w];
      j := j + 1;
    }
    forall c | 0 <= c < N_COLUMNAS ensures anchos[c] == Ancho(Maximo(Longitudes(hoja, c))) {
      AnchosDeIndice(hoja, N_COLUMNAS, c);
    }
  }

  /** `export_lines_to_xlsx(lines)` with `_row_from_linea` as the row builder. */
  method ExportarLineas(lineas: seq<Linea>, local: ALocal) returns (r: Result<Hoja>)
    ensures r.Err? ==> exists i :: 0 <= i < |lineas| && Anexar(FilaDe(lineas[i], local)) == Err(r.error)
                                   && forall k :: 0 <= k < i ==> Anexar(FilaDe(lineas[k], local)).Ok?
    ensures r.Ok? ==> |r.value.filas| == |lineas| + 1 && r.value.filas[0] == Cabecera()
                      && forall i :: 0 <= i < |lineas| ==>
                           (FilaDe(lineas[i], local).Ok? && FilaAdmitida(FilaDe(lineas[i], local).value)
                            && r.value.filas[i + 1] == GuardarFila(FilaDe(lineas[i], local).value))
    ensures r.Ok? ==> |r.value.anchos| == N_COLUMNAS
                      && (forall f :: f in r.value.filas ==> |f| == N_COLUMNAS)
                      && forall j :: 0 <= j < N_COLUMNAS ==> r.value.anchos[j] == Ancho(Maximo(Longitudes(r.value.filas, j)))
  {
    r := EscribirHoja(lineas, ln => FilaDe(ln, local));
  }

  /** Every width is between 10 and 60. */
  lemma AnchosAcotados(h: Hoja, j: nat)
    requires j < |h.anchos| && (forall f :: f in h.filas ==> j < |f|) && h.anchos[j] == Ancho(Maximo(Longitudes(h.filas, j)))
    ensures 10 <= h.anchos[j] <= 60
  {
  }
}

/**
 * The customer side of the ICG integration (`service/clientICG.py`): the
 * customer's full name and type code, the `UPDATE CLIENTES` statement built
 * from the fields that are set, its display text, the choice of the store a
 * customer belongs to, and the rules for issuing a loyalty card.
 *
 * The ICG database answers (existing cards, the customer lookup, the zones)
 * and its failures are parameters; the geodesic distance is an uninterpreted
 * function.
 */
module ClienteIcg {
  import opened Resultados
  import opened Textos

  /** The fields of a `RegistroCliente` the integration reads; `None` is a NULL column. */
  datatype Cliente = Cliente(
    primerNombre: Option<string>, segundoNombre: Option<string>,
    primerApellido: Option<string>, segundoApellido: Option<string>,
    tipoVia: Option<string>, direccion: Option<string>,
    telefono: Option<string>, celular: Option<string>, correo: Option<string>,
    fechaNacimiento: Option<string>, tipocliente: Option<string>,
    codcliente: Option<int>, numeroDocumento: string, fidelizacion: bool)

  /** Python truthiness of an optional string: set and not empty. */
  predicate Verdadero(o: Option<string>)
  {
    o.Some? && o.value != ""
  }

  /** `o or d`. */
  function O(o: Option<string>, d: string): (r: string)
    ensures Verdadero(o) ==> r == o.value
    ensures !Verdadero(o) ==> r == d
  {
    if Verdadero(o) then o.value else d
  }

  // ------------------------------------------------------------ name and type

  /** `nombreCompleto`: the four parts (missing ones empty) joined by single spaces, then stripped. */
  function NombreCompleto(c: Cliente): string
  {
    Strip(O(c.primerNombre, "") + " " + O(c.segundoNombre, "") + " " + O(c.primerApellido, "") + " " + O(c.segundoApellido, ""))
  }

  predicate SinBordes(s: string)
  {
    s != [] && !EsEspacio(s[0]) && !EsEspacio(s[|s| - 1])
  }

  /** With the four parts set and free of surrounding blanks, the name is the parts separated by one space. */
  lemma NombreCompletoCuatro(c: Cliente)
    requires Verdadero(c.primerNombre) && Verdadero(c.segundoNombre) && Verdadero(c.primerApellido) && Verdadero(c.segundoApellido)
    requires SinBordes(c.primerNombre.value) && SinBordes(c.segundoApellido.value)
    ensures NombreCompleto(c)
            == c.primerNombre.value + " " + c.segundoNombre.value + " " + c.primerApellido.value + " " + c.segundoApellido.value
  {
    var s := c.primerNombre.value + " " + c.segundoNombre.value + " " + c.primerApellido.value + " " + c.segundoApellido.value;
    assert s[0] == c.primerNombre.value[0];
    assert s[|s| - 1] == c.segundoApellido.value[|c.segundoApellido.value| - 1];
    StripSinBordes(s);
  }

  /** A missing middle name leaves two spaces between the first name and the first surname. */
  lemma NombreSinSegundo(c: Cliente)
    requires Verdadero(c.primerNombre) && !Verdadero(c.segundoNombre) && Verdadero(c.primerApellido) && Verdadero(c.segundoApellido)
    requires SinBordes(c.primerNombre.value) && SinBordes(c.segundoApellido.value)
    ensures NombreCompleto(c) == c.primerNombre.value + "  " + c.primerApellido.value + " " + c.segundoApellido.value
  {
    var s := c.primerNombre.value + " " + "" + " " + c.primerApellido.value + " " + c.segundoApellido.value;
    assert s == c.primerNombre.value + "  " + c.primerApellido.value + " " + c.segundoApellido.value;
    assert s[0] == c.primerNombre.value[0];
    assert s[|s| - 1] == c.segundoApellido.value[|c.segundoApellido.value| - 1];
    StripSinBordes(s);
  }

  /** The ICG customer type, the same mapping for creating and for updating a customer. */
  function TipoCliente(t: Option<string>): (k: int)
    ensures k == 14 || k == 20 || k == 5
    ensures k == 20 <==> t == Some("Colaborador")
    ensures k == 5 <==> t == Some("Empresa")
  {
    if t == Some("Clientes") then 14
    else if t == Some("Colaborador") then 20
    else if t == Some("Empresa") then 5
    else 14
  }

  /** `CLIENTE_INTERNO` and `VENTA_INTERNA` of the free fields. */
  function Interno(t: Option<string>): (v: string)
    ensures v == "T" <==> t == Some("Colaborador")
    ensures v == "T" || v == "F"
  {
    if t == Some("Colaborador") then "T" else "F"
  }

  // ------------------------------------------------------------ `actualizarClienteICG`

  datatype Columna = NombreCliente | NombreComercial | Direccion1 | Telefono1 | Telefono2 | EMail | FechaNacimiento | Tipo

  function NombreColumna(c: Columna): (s: string)
    ensures '?' !in s
  {
    match c
    case NombreCliente => "NOMBRECLIENTE"
    case NombreComercial => "NOMBRECOMERCIAL"
    case Direccion1 => "DIRECCION1"
    case Telefono1 => "TELEFONO1"
    case Telefono2 => "TELEFONO2"
    case EMail => "E_MAIL"
    case FechaNacimiento => "FECHANACIMIENTO"
    case Tipo => "TIPO"
  }

  /** A statement parameter: a string, an integer, a date (shown by `str()`, without quotes) or NULL. */
  datatype Valor = VTexto(s: string) | VEntero(i: int) | VFecha(f: string) | VNulo

  /** The columns in the order the program considers them. */
  const Orden: seq<Columna> := [NombreCliente, NombreComercial, Direccion1, Telefono1, Telefono2, EMail, FechaNacimiento, Tipo]

  function Posicion(k: Columna): (i: nat)
    ensures i < |Orden| && Orden[i] == k
  {
    match k
    case NombreCliente => 0
    case NombreComercial => 1
    case Direccion1 => 2
    case Telefono1 => 3
    case Telefono2 => 4
    case EMail => 5
    case FechaNacimiento => 6
    case Tipo => 7
  }

  /** Whether the update sets a column: its field is truthy; the two name columns on a first name or a first surname. */
  predicate Presente(c: Cliente, k: Columna)
  {
    match k
    case NombreCliente => Verdadero(c.primerNombre) || Verdadero(c.primerApellido)
    case NombreComercial => Verdadero(c.primerNombre) || Verdadero(c.primerApellido)
    case Direccion1 => Verdadero(c.direccion)
    case Telefono1 => Verdadero(c.telefono)
    case Telefono2 => Verdadero(c.celular)
    case EMail => Verdadero(c.correo)
    case FechaNacimiento => Verdadero(c.fechaNacimiento)
    case Tipo => Verdadero(c.tipocliente)
  }

  /** The value a column is set to: the full name, the road type and address stripped, the field itself, or the type code. */
  function ValorDe(c: Cliente, k: Columna): Valor
  {
    match k
    case NombreCliente => VTexto(NombreCompleto(c))
    case NombreComercial => VTexto(NombreCompleto(c))
    case Direccion1 => VTexto(Strip(O(c.tipoVia, "") + " " + O(c.direccion, "")))
    case Telefono1 => VTexto(O(c.telefono, ""))
    case Telefono2 => VTexto(O(c.celular, ""))
    case EMail => VTexto(O(c.correo, ""))
    case FechaNacimiento => VFecha(O(c.fechaNacimiento, ""))
    case Tipo => VEntero(TipoCliente(c.tipocliente))
  }

  /** The candidates that are appended, in their order. */
  function Filtrar(xs: seq<(bool, Columna, Valor)>): (r: seq<(Columna, Valor)>)
    ensures |r| <= |xs|
  {
    if xs == [] then []
    else (if xs[0].0 then [(xs[0].1, xs[0].2)] else []) + Filtrar(xs[1..])
  }

  /** Each column in `Orden`, whether it is set, and its value. */
  function Candidatos(c: Cliente): (xs: seq<(bool, Columna, Valor)>)
    ensures |xs| == |Orden|
    ensures forall i :: 0 <= i < |xs| ==> xs[i] == (Presente(c, Orden[i]), Orden[i], ValorDe(c, Orden[i]))
  {
    seq(|Orden|, i requires 0 <= i < |Orden| => (Presente(c, Orden[i]), Orden[i], ValorDe(c, Orden[i])))
  }

  /** The column/value pairs of the update, in the order the program appends them. */
  function Campos(c: Cliente): (r: seq<(Columna, Valor)>)
  {
    Filtrar(Candidatos(c))
  }

  function Columnas(cs: seq<(Columna, Valor)>): (r: seq<Columna>)
    ensures |r| == |cs|
  {
    seq(|cs|, i requires 0 <= i < |cs| => cs[i].0)
  }

  /** A pair is kept exactly when some candidate holding it is marked. */
  lemma {:induction false} FiltrarMiembro(xs: seq<(bool, Columna, Valor)>, p: (Columna, Valor))
    ensures p in Filtrar(xs) <==> exists i :: 0 <= i < |xs| && xs[i].0 && (xs[i].1, xs[i].2) == p
    decreases |xs|
  {
    if xs != [] {
      FiltrarMiembro(xs[1..], p);
      var cabeza := if xs[0].0 then [(xs[0].1, xs[0].2)] else [];
      assert Filtrar(xs) == cabeza + Filtrar(xs[1..]);
      if p in Filtrar(xs[1..]) {
        var i :| 0 <= i < |xs[1..]| && xs[1..][i].0 && (xs[1..][i].1, xs[1..][i].2) == p;
        assert xs[i + 1] == xs[1..][i];
      }
      if exists i :: 0 <= i < |xs| && xs[i].0 && (xs[i].1, xs[i].2) == p {
        var i :| 0 <= i < |xs| && xs[i].0 && (xs[i].1, xs[i].2) == p;
        if i > 0 {
          assert xs[1..][i - 1] == xs[i];
        }
      }
    }
  }

  lemma ColumnasMiembro(cs: seq<(Columna, Valor)>, k: Columna)
    ensures k in Columnas(cs) <==> exists p :: p in cs && p.0 == k
  {
    if k in Columnas(cs) {
      var i :| 0 <= i < |cs| && Columnas(cs)[i] == k;
      assert cs[i] in cs;
    }
    if exists p :: p in cs && p.0 == k {
      var p :| p in cs && p.0 == k;
      var i :| 0 <= i < |cs| && cs[i] == p;
      assert Columnas(cs)[i] == k;
    }
  }

  /** The update sets a column exactly when `Presente` holds, and to `ValorDe`. */
  lemma CamposSegunDatos(c: Cliente, k: Columna, v: Valor)
    ensures k in Columnas(Campos(c)) <==> Presente(c, k)
    ensures (k, v) in Campos(c) <==> Presente(c, k) && v == ValorDe(c, k)
  {
    CampoPar(c, k, v);
    CampoPar(c, k, ValorDe(c, k));
    ColumnasMiembro(Campos(c), k);
    if k in Columnas(Campos(c)) {
      var p :| p in Campos(c) && p.0 == k;
      CampoPar(c, k, p.1);
    }
  }

  lemma CampoPar(c: Cliente, k: Columna, v: Valor)
    ensures (k, v) in Campos(c) <==> Presente(c, k) && v == ValorDe(c, k)
  {
    var xs := Candidatos(c);
    FiltrarMiembro(xs, (k, v));
    if (k, v) in Campos(c) {
      var i :| 0 <= i < |xs| && xs[i].0 && (xs[i].1, xs[i].2) == (k, v);
      assert Orden[i] == k;
    }
    assert xs[Posicion(k)] == (Presente(c, k), k, ValorDe(c, k));
  }

  lemma {:induction false} FiltrarVacio(xs: seq<(bool, Columna, Valor)>)
    ensures Filtrar(xs) == [] <==> forall i :: 0 <= i < |xs| ==> !xs[i].0
    decreases |xs|
  {
    if xs != [] {
      FiltrarVacio(xs[1..]);
      if forall i :: 0 <= i < |xs| ==> !xs[i].0 {
        assert forall i :: 0 <= i < |xs[1..]| ==> xs[1..][i] == xs[i + 1];
      }
      if forall i :: 1 <= i < |xs| ==> !xs[i].0 {
        assert forall i :: 0 <= i < |xs[1..]| ==> !xs[1..][i].0 by {
          forall i | 0 <= i < |xs[1..]| ensures !xs[1..][i].0 {
            assert xs[1..][i] == xs[i + 1];
          }
        }
      }
    }
  }

  /** What the update does: nothing (`'No hay cambios'`), or run a statement with its parameters. */
  datatype Actualizacion = NoHayCambios | Sentencia(sql: string, valores: seq<Valor>)

  function Asignaciones(cs: seq<(Columna, Valor)>): (r: seq<string>)
    ensures |r| == |cs|
  {
    seq(|cs|, i requires 0 <= i < |cs| => NombreColumna(cs[i].0) + " = ?")
  }

  const ACTUALIZAR: string := "UPDATE CLIENTES SET "
  const DONDE: string := " WHERE CODCLIENTE = "

  lemma FijasSinMarcas()
    ensures '?' !in ACTUALIZAR && '?' !in DONDE
  {
  }

  /** The statement for a non-empty list of pairs: the SET clause joined by commas, the values, the customer code last. */
  function Construir(cs: seq<(Columna, Valor)>, codcliente: Option<int>): (r: Actualizacion)
  {
    Sentencia(ACTUALIZAR + Join(Asignaciones(cs), ", ") + DONDE + "?",
              seq(|cs|, i requires 0 <= i < |cs| => cs[i].1) + [if codcliente.Some? then VEntero(codcliente.value) else VNulo])
  }

  function Actualizar(c: Cliente): (r: Actualizacion)
  {
    var cs := Campos(c);
    if cs == [] then NoHayCambios else Construir(cs, c.codcliente)
  }

  /** With no column to set the update is `'No hay cambios'` and nothing runs. */
  lemma SinCambios(c: Cliente)
    ensures Actualizar(c).NoHayCambios? <==> forall k: Columna :: !Presente(c, k)
  {
    var xs := Candidatos(c);
    FiltrarVacio(xs);
    if forall i :: 0 <= i < |xs| ==> !xs[i].0 {
      forall k: Columna ensures !Presente(c, k) {
        assert xs[Posicion(k)].0 == Presente(c, k);
      }
    }
  }

  // ------------------------------------------------------------ placeholders

  /** The number of `?` placeholders in a text. */
  function Marcas(s: string): nat
  {
    if s == [] then 0 else (if s[0] == '?' then 1 else 0) + Marcas(s[1..])
  }

  lemma {:induction false} MarcasConcat(a: string, b: string)
    ensures Marcas(a + b) == Marcas(a) + Marcas(b)
    decreases |a|
  {
    if a != [] {
      assert (a + b)[0] == a[0] && (a + b)[1..] == a[1..] + b;
      MarcasConcat(a[1..], b);
      assert Marcas(a + b) == (if a[0] == '?' then 1 else 0) + Marcas(a[1..] + b);
    } else {
      assert a + b == b;
    }
  }

  lemma {:induction false} MarcasCero(s: string)
    requires '?' !in s
    ensures Marcas(s) == 0
    decreases |s|
  {
    if s != [] {
      assert s[0] in s;
      assert forall x :: x in s[1..] ==> x in s;
      MarcasCero(s[1..]);
    }
  }

  lemma MarcasUna(s: string)
    requires '?' !in s
    ensures Marcas(s + "?") == 1
  {
    MarcasCero(s);
    MarcasConcat(s, "?");
    assert Marcas("?"[1..]) == 0;
  }

  /** One assignment `<column> = ?` holds one placeholder. */
  lemma MarcasAsignacion(c: (Columna, Valor))
    ensures Marcas(Asignaciones([c])[0]) == 1
  {
    var a := NombreColumna(c.0);
    MarcasCero(a);
    MarcasConcat(a, " = ?");
    MarcasUna(" = ");
  }

  /** The separator adds no placeholder. */
  lemma MarcasSeparadas(x: string, y: string)
    ensures Marcas(x + ", " + y) == Marcas(x) + Marcas(y)
  {
    MarcasCero(", ");
    MarcasConcat(x, ", ");
    MarcasConcat(x + ", ", y);
  }

  /** Each assignment holds one placeholder, so the joined SET clause holds as many as there are columns. */
  lemma {:induction false} MarcasJoin(cs: seq<(Columna, Valor)>)
    ensures Marcas(Join(Asignaciones(cs), ", ")) == |cs|
    decreases |cs|
  {
    if cs != [] {
      var x := Asignaciones(cs)[0];
      MarcasAsignacion(cs[0]);
      if |cs| > 1 {
        var resto := Asignaciones(cs[1..]);
        assert Asignaciones(cs)[1..] == resto;
        MarcasJoin(cs[1..]);
        MarcasSeparadas(x, Join(resto, ", "));
        assert Join(Asignaciones(cs), ", ") == x + ", " + Join(resto, ", ");
      }
    }
  }

  /** The statement holds exactly one placeholder per parameter, the customer code last. */
  lemma MarcasSentencia(cs: seq<(Columna, Valor)>, codcliente: Option<int>)
    ensures Marcas(Construir(cs, codcliente).sql) == |Construir(cs, codcliente).valores|
  {
    MarcasJoin(cs);
    FijasSinMarcas();
    MarcasCero(ACTUALIZAR);
    MarcasCero(DONDE);
    MarcasEntre(ACTUALIZAR, Join(Asignaciones(cs), ", "), DONDE);
  }

  lemma MarcasEntre(a: string, b: string, c: string)
    requires Marcas(a) == 0 && Marcas(c) == 0
    ensures Marcas(a + b + c + "?") == Marcas(b) + 1
  {
    MarcasConcat(a, b);
    MarcasConcat(a + b, c);
    MarcasConcat(a + b + c, "?");
    assert "?"[0] == '?' && "?"[1..] == [];
  }

  // ------------------------------------------------------------ the display text

  /** How a parameter is shown: a quoted string, `NULL`, or `str()` of the value. */
  function Mostrar(v: Valor): string
  {
    match v
    case VTexto(s) => "'" + s + "'"
    case VNulo => "NULL"
    case VEntero(i) => IntATexto(i)
    case VFecha(f) => f
  }

  /** `s.replace('?', r, 1)`. */
  function ReemplazarPrimera(s: string, r: string): (t: string)
    ensures '?' !in s ==> t == s
  {
    if s == [] then []
    else if s[0] == '?' then r + s[1..]
    else [s[0]] + ReemplazarPrimera(s[1..], r)
  }

  /** The display loop as written: each value replaces the first `?` left in the text built so far. */
  function MostrarComoEscrito(sql: string, valores: seq<Valor>): string
  {
    if valores == [] then sql
    else ReemplazarPrimera(MostrarComoEscrito(sql, valores[..|valores| - 1]), Mostrar(valores[|valores| - 1]))
  }

  method MostrarSql(sql: string, valores: seq<Valor>) returns (sqlMostrar: string)
    ensures sqlMostrar == MostrarComoEscrito(sql, valores)
  {
    sqlMostrar := sql;
    var i := 0;
    while i < |valores|
      invariant 0 <= i <= |valores| && sqlMostrar == MostrarComoEscrito(sql, valores[..i])
    {
      assert valores[..i + 1][..i] == valores[..i];
      var valorReemplazo: string;
      match valores[i] {
        case VTexto(s) => valorReemplazo := "'" + s + "'";
        case VNulo => valorReemplazo := "NULL";
        case VEntero(k) => valorReemplazo := IntATexto(k);
        case VFecha(f) => valorReemplazo := f;
      }
      sqlMostrar := ReemplazarPrimera(sqlMostrar, valorReemplazo);
      i := i + 1;
    }
    assert valores[..|valores|] == valores;
  }

  /** The intended display: the placeholders of the statement, left to right, replaced by the values in order. */
  function SustituirMarcas(sql: string, valores: seq<Valor>): string
  {
    if sql == [] then []
    else if sql[0] == '?' && valores != [] then Mostrar(valores[0]) + SustituirMarcas(sql[1..], valores[1..])
    else [sql[0]] + SustituirMarcas(sql[1..], valores)
  }

  /** A value shown with a `?` in it takes the next value's place: `? ?` with `a?` and `b` shows `'a'b'' ?`. */
  lemma MarcaEnValor()
    ensures MostrarComoEscrito("? ?", [VTexto("a?"), VTexto("b")]) == "'a'b'' ?"
    ensures SustituirMarcas("? ?", [VTexto("a?"), VTexto("b")]) == "'a?' 'b'"
  {
    var v := [VTexto("a?"), VTexto("b")];
    assert v[..1] == [VTexto("a?")] && v[..1][..0] == [];
    assert Mostrar(v[0]) == "'a?'" && Mostrar(v[1]) == "'b'";
    assert MostrarComoEscrito("? ?", v[..1]) == ReemplazarPrimera("? ?", "'a?'");
    PrimerPaso();
    SegundoPaso();
    SustitucionIntencionada();
  }

  lemma PrimerPaso()
    ensures ReemplazarPrimera("? ?", "'a?'") == "'a?' ?"
  {
    var s := "? ?";
    assert s[0] == '?' && s[1..] == " ?";
    assert "'a?'" + " ?" == "'a?' ?";
  }

  lemma SegundoPaso()
    ensures ReemplazarPrimera("'a?' ?", "'b'") == "'a'b'' ?"
  {
    var t, r := "'a?' ?", "'b'";
    assert t[0] == '\'' && t[1] == 'a' && t[2] == '?';
    assert t[1..][1..] == t[2..] && t[2..][1..] == "' ?";
    assert ReemplazarPrimera(t[2..], r) == r + "' ?";
    assert ReemplazarPrimera(t[1..], r) == [t[1]] + ReemplazarPrimera(t[2..], r);
    assert ReemplazarPrimera(t, r) == [t[0]] + ReemplazarPrimera(t[1..], r);
    assert [t[0]] + ([t[1]] + (r + "' ?")) == "'a'b'' ?";
  }

  lemma SustitucionIntencionada()
    ensures SustituirMarcas("? ?", [VTexto("a?"), VTexto("b")]) == "'a?' 'b'"
  {
    var v := [VTexto("a?"), VTexto("b")];
    var s := "? ?";
    assert s[0] == '?' && s[1..] == " ?" && " ?"[0] == ' ' && " ?"[1..] == "?" && "?"[0] == '?' && "?"[1..] == [];
    assert v[1..] == [VTexto("b")] && v[1..][1..] == [];
    assert Mostrar(v[0]) == "'a?'" && Mostrar(v[1]) == "'b'";
    assert SustituirMarcas("?", [VTexto("b")]) == "'b'" + SustituirMarcas([], []);
    assert SustituirMarcas(" ?", [VTexto("b")]) == [' '] + SustituirMarcas("?", [VTexto("b")]);
    assert SustituirMarcas(s, v) == "'a?'" + SustituirMarcas(" ?", [VTexto("b")]);
    assert "'a?'" + ([' '] + ("'b'" + [])) == "'a?' 'b'";
  }

  lemma {:induction false} SustituirSinValores(sql: string)
    ensures SustituirMarcas(sql, []) == sql
    decreases |sql|
  {
    if sql != [] {
      SustituirSinValores(sql[1..]);
    }
  }

  lemma {:induction false} ReemplazarTrasTexto(a: string, b: string, r: string)
    requires '?' !in a
    ensures ReemplazarPrimera(a + b, r) == a + ReemplazarPrimera(b, r)
    decreases |a|
  {
    if a != [] {
      assert a[0] in a;
      assert forall x :: x in a[1..] ==> x in a;
      assert (a + b)[0] == a[0] && (a + b)[1..] == a[1..] + b;
      ReemplazarTrasTexto(a[1..], b, r);
      assert ReemplazarPrimera(a + b, r) == [a[0]] + ReemplazarPrimera(a[1..] + b, r);
      assert [a[0]] + (a[1..] + ReemplazarPrimera(b, r)) == a + ReemplazarPrimera(b, r);
    } else {
      assert a + b == b;
    }
  }

  predicate SinMarcas(valores: seq<Valor>)
  {
    forall i :: 0 <= i < |valores| ==> '?' !in Mostrar(valores[i])
  }

  lemma {:induction false} SustituirAnadir(sql: string, valores: seq<Valor>, v: Valor)
    requires SinMarcas(valores)
    ensures SustituirMarcas(sql, valores + [v]) == ReemplazarPrimera(SustituirMarcas(sql, valores), Mostrar(v))
    decreases |sql|
  {
    if sql != [] {
      if sql[0] == '?' && valores != [] {
        assert (valores + [v])[1..] == valores[1..] + [v];
        SustituirAnadir(sql[1..], valores[1..], v);
        ReemplazarTrasTexto(Mostrar(valores[0]), SustituirMarcas(sql[1..], valores[1..]), Mostrar(v));
      } else if sql[0] == '?' {
        assert valores + [v] == [v];
        SustituirSinValores(sql[1..]);
        SustituirSinValores(sql);
      } else {
        SustituirAnadir(sql[1..], valores, v);
      }
    }
  }

  lemma SinMarcasPrevios(valores: seq<Valor>, k: nat)
    requires k <= |valores| && SinMarcas(valores)
    ensures SinMarcas(valores[..k])
  {
    forall i | 0 <= i < k ensures '?' !in Mostrar(valores[..k][i]) {
      assert valores[..k][i] == valores[i];
    }
  }

  /** When no value shows a `?`, the display as written is the intended one. */
  lemma {:induction false} ComoEscritoSinMarcas(sql: string, valores: seq<Valor>)
    requires SinMarcas(valores)
    ensures MostrarComoEscrito(sql, valores) == SustituirMarcas(sql, valores)
    decreases |valores|
  {
    if valores == [] {
      SustituirSinValores(sql);
    } else {
      var k := |valores| - 1;
      var previos, v := valores[..k], valores[k];
      assert previos + [v] == valores;
      SinMarcasPrevios(valores, k);
      ComoEscritoSinMarcas(sql, previos);
      SustituirAnadir(sql, previos, v);
      calc {
        MostrarComoEscrito(sql, valores);
        ReemplazarPrimera(MostrarComoEscrito(sql, previos), Mostrar(v));
        ReemplazarPrimera(SustituirMarcas(sql, previos), Mostrar(v));
        SustituirMarcas(sql, previos + [v]);
      }
    }
  }

  /** The intended display uses one value per placeholder: no placeholder is left when there are as many values, none of them showing a `?`. */
  lemma {:induction false} SustituirCompleto(sql: string, valores: seq<Valor>)
    requires SinMarcas(valores) && Marcas(sql) <= |valores|
    ensures Marcas(SustituirMarcas(sql, valores)) == 0
    decreases |sql|
  {
    if sql != [] {
      if sql[0] == '?' && valores != [] {
        SustituirCompleto(sql[1..], valores[1..]);
        MarcasCero(Mostrar(valores[0]));
        MarcasConcat(Mostrar(valores[0]), SustituirMarcas(sql[1..], valores[1..]));
      } else {
        SustituirCompleto(sql[1..], valores);
        MarcasConcat([sql[0]], SustituirMarcas(sql[1..], valores));
      }
    }
  }

  // ------------------------------------------------------------ `determinar_sucursal`

  const CALDAS: string := "CALDAS"

  /** A coordinate as received: missing, not a number, or a number. */
  datatype Coordenada = Nula | NoNumerica | Numero(x: real)

  /** A `ZonaPermitida` row. */
  datatype Zona = Zona(nombre: string, activa: bool, latitud: Option<real>, longitud: Option<real>, maxDistancia: Option<real>)

  /** `int(x)`: truncation toward zero. */
  function Truncar(x: real): (k: int)
    ensures x >= 0.0 ==> k == x.Floor
    ensures x < 0.0 ==> k == -((-x).Floor)
  {
    if x >= 0.0 then x.Floor else -((-x).Floor)
  }

  /** A zone the customer belongs to: active, with all its data, and within its radius. */
  predicate EnZona(z: Zona, lat: real, lon: real, distancia: (real, real, real, real) -> real)
  {
    z.activa && z.latitud.Some? && z.longitud.Some? && z.maxDistancia.Some?
    && distancia(lat, lon, z.latitud.value, z.longitud.value) <= Truncar(z.maxDistancia.value) as real
  }

  /** The position of the first zone the customer belongs to. */
  function PrimeraZona(zonas: seq<Zona>, lat: real, lon: real, distancia: (real, real, real, real) -> real): (r: Option<nat>)
    ensures r.Some? ==> r.value < |zonas| && EnZona(zonas[r.value], lat, lon, distancia)
                        && forall j :: 0 <= j < r.value ==> !EnZona(zonas[j], lat, lon, distancia)
    ensures r.None? ==> forall j :: 0 <= j < |zonas| ==> !EnZona(zonas[j], lat, lon, distancia)
  {
    if zonas == [] then None
    else if EnZona(zonas[0], lat, lon, distancia) then Some(0)
    else
      var r := PrimeraZona(zonas[1..], lat, lon, distancia);
      if r.Some? then Some(r.value + 1) else None
  }

  predicate EnRango(lat: real, lon: real)
  {
    -90.0 <= lat <= 90.0 && -180.0 <= lon <= 180.0
  }

  /** The store of a customer: the first zone it belongs to, or `CALDAS` on bad coordinates, a failed query or no zone. */
  function Sucursal(latitud: Coordenada, longitud: Coordenada, zonas: Result<seq<Zona>>, distancia: (real, real, real, real) -> real): (s: string)
  {
    if !latitud.Numero? || !longitud.Numero? || !EnRango(latitud.x, longitud.x) || zonas.Err? then CALDAS
    else
      var k := PrimeraZona(zonas.value, latitud.x, longitud.x, distancia);
      if k.Some? then zonas.value[k.value].nombre else CALDAS
  }

  /** The checks before the zones are read, as the program makes them one after the other. */
  method DeterminarSucursal(latitud: Coordenada, longitud: Coordenada, zonas: Result<seq<Zona>>, distancia: (real, real, real, real) -> real)
    returns (s: string)
    ensures s == Sucursal(latitud, longitud, zonas, distancia)
  {
    if latitud.Nula? || longitud.Nula? {
      return CALDAS;
    }
    if latitud.NoNumerica? || longitud.NoNumerica? {
      return CALDAS;
    }
    var lat, lon := latitud.x, longitud.x;
    if !(-90.0 <= lat <= 90.0) || !(-180.0 <= lon <= 180.0) {
      return CALDAS;
    }
    if zonas.Err? {
      return CALDAS;
    }
    var k := BuscarZona(zonas.value, lat, lon, distancia);
    s := if k.Some? then zonas.value[k.value].nombre else CALDAS;
  }

  /** The loop over the zones, returning at the first one the customer belongs to. */
  method BuscarZona(zs: seq<Zona>, lat: real, lon: real, distancia: (real, real, real, real) -> real) returns (k: Option<nat>)
    ensures k == PrimeraZona(zs, lat, lon, distancia)
  {
    var i := 0;
    while i < |zs|
      invariant 0 <= i <= |zs|
      invariant forall j :: 0 <= j < i ==> !EnZona(zs[j], lat, lon, distancia)
    {
      var z := zs[i];
      if z.activa {
        if z.latitud.Some? && z.longitud.Some? && z.maxDistancia.Some? {
          var distanciaMax := Truncar(z.maxDistancia.value);
          var d := distancia(lat, lon, z.latitud.value, z.longitud.value);
          if d <= distanciaMax as real {
            PrimeraEn(zs, lat, lon, distancia, i);
            return Some(i);
          }
        }
      }
      i := i + 1;
    }
    NingunaEn(zs, lat, lon, distancia);
    k := None;
  }

  lemma PrimeraEn(zs: seq<Zona>, lat: real, lon: real, distancia: (real, real, real, real) -> real, i: nat)
    requires i < |zs| && EnZona(zs[i], lat, lon, distancia) && forall j :: 0 <= j < i ==> !EnZona(zs[j], lat, lon, distancia)
    ensures PrimeraZona(zs, lat, lon, distancia) == Some(i)
  {
  }

  lemma NingunaEn(zs: seq<Zona>, lat: real, lon: real, distancia: (real, real, real, real) -> real)
    requires forall j :: 0 <= j < |zs| ==> !EnZona(zs[j], lat, lon, distancia)
    ensures PrimeraZona(zs, lat, lon, distancia) == None
  {
  }

  /** The store is a zone's name only for a valid position inside that zone, with no earlier zone containing it. */
  lemma SucursalEsPrimera(latitud: Coordenada, longitud: Coordenada, zonas: seq<Zona>, distancia: (real, real, real, real) -> real, k: nat)
    requires latitud.Numero? && longitud.Numero? && EnRango(latitud.x, longitud.x)
    requires k < |zonas| && EnZona(zonas[k], latitud.x, longitud.x, distancia)
    requires forall j :: 0 <= j < k ==> !EnZona(zonas[j], latitud.x, longitud.x, distancia)
    ensures Sucursal(latitud, longitud, Ok(zonas), distancia) == zonas[k].nombre
  {
    PrimeraEn(zonas, latitud.x, longitud.x, distancia, k);
  }

  // ------------------------------------------------------------ `create_fidelizacion`

  /** What `getClienteICG` returns: the rows found, or the text `'error Data'` after an exception. */
  datatype ConsultaCliente = Filas(n: nat) | ErrorData

  /** Python truthiness of that answer: a non-empty list, or the (non-empty) error text. */
  predicate Existe(q: ConsultaCliente)
  {
    q.ErrorData? || q.n > 0
  }

  /** The card inserted into `TARJETAS`. */
  datatype Tarjeta = Tarjeta(idTarjeta: int, codcliente: Option<int>, nombre: string, documento: string)

  /**
   * `create_fidelizacion`: `fallaConsulta` stands for an exception before the
   * checks, `fallaInsercion` for one in the insert; `maxId` is `MAX(IDTARJETA)`.
   * The message is `None` when the customer does not ask for a card.
   */
  function CrearFidelizacion(c: Cliente, fallaConsulta: bool, tieneTarjeta: bool, maxId: Option<int>,
                             existe: ConsultaCliente, fallaInsercion: bool): (r: (Option<string>, Option<Tarjeta>))
  {
    if fallaConsulta then (Some("Error al crear tarjeta."), None)
    else if !c.fidelizacion then (None, None)
    else if tieneTarjeta then (Some("El cliente ya tiene tarjeta."), None)
    else if c.tipocliente == Some("Cliente") || c.tipocliente == Some("Colaborador") then
      if !Existe(existe) then (Some("El cliente no existe en la base de datos."), None)
      else if fallaInsercion then (Some("Error al crear tarjeta."), None)
      else
        var id := (if maxId.Some? then maxId.value else 0) + 1;
        (Some("Tarjeta creada exitosamente."), Some(Tarjeta(id, c.codcliente, NombreCompleto(c), c.numeroDocumento)))
    else (Some("Es una empresa no fideliza"), None)
  }

  /** A card is issued exactly when asked for, none exists, the type is `Cliente` or `Colaborador`, the lookup answers and nothing fails; its id is one above the highest. */
  lemma TarjetaSoloSi(c: Cliente, fallaConsulta: bool, tieneTarjeta: bool, maxId: Option<int>, existe: ConsultaCliente, fallaInsercion: bool)
    ensures var r := CrearFidelizacion(c, fallaConsulta, tieneTarjeta, maxId, existe, fallaInsercion);
            (r.1.Some? <==> !fallaConsulta && c.fidelizacion && !tieneTarjeta
                             && (c.tipocliente == Some("Cliente") || c.tipocliente == Some("Colaborador"))
                             && Existe(existe) && !fallaInsercion)
            && (r.1.Some? ==> r.1.value.idTarjeta == (if maxId.Some? then maxId.value else 0) + 1
                              && r.1.value.codcliente == c.codcliente && r.0 == Some("Tarjeta creada exitosamente."))
  {
  }

  /** The type mapping's `Clientes` is not the `Cliente` this rule accepts: such a customer is refused as a company. */
  lemma ClientesNoFideliza(c: Cliente, tieneTarjeta: bool, maxId: Option<int>, existe: ConsultaCliente, fallaInsercion: bool)
    requires c.tipocliente == Some("Clientes") && c.fidelizacion && !tieneTarjeta
    ensures CrearFidelizacion(c, false, tieneTarjeta, maxId, existe, fallaInsercion) == (Some("Es una empresa no fideliza"), None)
    ensures TipoCliente(c.tipocliente) == 14
  {
  }

  /** A failed customer lookup answers the non-empty text `'error Data'`, which counts as an existing customer. */
  lemma ErrorDataCuentaComoExistente(c: Cliente, maxId: Option<int>)
    requires c.fidelizacion && c.tipocliente == Some("Colaborador")
    ensures CrearFidelizacion(c, false, false, maxId, ErrorData, false).1.Some?
  {
  }
}

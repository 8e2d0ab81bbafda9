# Back office of the mercasur supermarkets, modelled in Dafny

The back office is a Django site used by the purchasing, budgeting, customer
and IT-support staff of a supermarket chain. This project models its core
logic, one Dafny module per source file:

- **Compras** (purchasing). Purchase suggestions are computed from stock
  levels and pack sizes (`CalculoSugerido`), and the suggestion data is
  imported from the ICG point-of-sale database (`IcgImport`,
  `ImportConsulta`). Suppliers and brands are reconciled with ICG
  (`ActualizarProveedores`).
  - Suppliers edit their lines in the admin list (`FormularioLineas`,
    `FiltrosLineas`, `VistasLote`), and purchase orders are written for a
    lot (`OrdenesCompra`, `PedidosIcg`, `UtilsPedido`).
  - Articles go through the ABC classification, from extraction to the
    final write-back into ICG (`Clasificacion`, `ClasificacionProceso`,
    `ModelosCompras`, `ProcesosAdmin`, `TareasIcg`).
  - Suppliers meet budget KPIs (`KpiProveedores`), sellers are notified
    (`Notificaciones`), and lines are exported to a spreadsheet (`Exports`).
- **presupuesto** (budget). A monthly budget is split into daily values by
  weekday percentages (`PresupuestoCalculo`). The admin checks those
  percentages (`PresupuestoAdmin`). Other helpers are the money format, the
  heat-map class and the rebalancing of a month's percentages
  (`PresupuestoUtils`, `DictHelpers`).
- **clientes** (customers). Customer codes are handed out from a stored
  sequence (`ClientesUtils`). Temporary codes are valid for ten hours
  (`ClientesModelos`). The model also covers the customer mails
  (`CorreoClientes`) and the customer side of the ICG integration: the
  UPDATE statement, the choice of store and the loyalty-card rules
  (`ClienteIcg`).
- **automatizaciones** (automations). The Rappi catalogue is synchronised
  (`RappiSync`, `RappiEstado`) using a cached token (`RappiAuth`), and the
  articles Rappi does not know are logged (`RappiMissing`). The model also
  covers the article upload (`CargaArticulos`), the scheduled mailings and
  their periodic tasks (`SenalesEnvios`), and the rendered mail
  (`CorreoRenderizado`).
- **SoporteTI** (IT support): a ticket is stamped with its closing moment
  the first time it is saved as solved or cancelled (`Bitacora`).

The shared modules are:

- `Resultados`: `Option` and `Result`.
- `Decimales`: Python's `Decimal` on exact `real`s, with the rounding modes
  written out.
- `Textos`: the string operations of Python the code relies on.
- `Ordenacion`: the stable sort, `groupby` and the ordering of `str`.
- `Calendario`: the Gregorian calendar.
- `Lineas`: the purchase-suggestion records.

The database, HTTP requests, the clock, randomness and the mail backend are
parameters of the functions that use them. What a call writes or sends is
returned as a value. Where the program changes objects in place, the model
does too:

- a ticket (`Bitacora.Binnacle`);
- the code tables (`ClientesModelos.TablaCodigos`,
  `ClientesUtils.TablaSecuencia`);
- the token cache (`RappiAuth.CacheToken`);
- the missing-article log (`RappiMissing.TablaFaltantes`);
- a Rappi article (`RappiEstado.ArticuloRappi`).

Loops in the program are methods, proved equal to a specification function.
The properties of each operation are proved as lemmas about that function.

### Behaviour kept as the code has it

Where the code and its design notes differ, the model follows the code.
Each point below is stated by a member listed in the table.

- Confirming a lot for a supplier: in `Compras/admin.py` it only sets the
  state CONFIRMADO. The copy in `Compras/admin/sugeridos.py` also copies
  the internal suggestion into the confirmed quantity (`VistasLote`).
- The two copies of the ICG confirmation differ in who may complete a lot
  (`VistasLote`).
- Which values of the suggestion form count as "given" follows the truth
  of the parsed value, not the presence of the key (`FormularioLineas`).
- `actualizar_clasificaciones_en_icg` writes the action status `VALIDADO`,
  which is not among the declared choices of `estado_accion` (`TareasIcg`).
- Some branches cannot be reached and are modelled as unreachable:
  - `generar_clasificacion_final` in `Compras/admin.py` (`ProcesosAdmin`);
  - `presupuesto/admin.py:46-51` (`PresupuestoAdmin`).
- `.delay(proceso.pk)` is called on a plain function. The Celery task is never
  registered, so nothing is queued (`ProcesosAdmin`).
- The signal on `CorreoEnviado` passes a `marcas=` argument and uses a
  `__ne` lookup. Both raise, and the receiver swallows the error
  (`SenalesEnvios`).
- A division by zero in `calcular_sugerido_inteligente` is an error result
  (`CalculoSugerido`).
- `send_mail` is called in `Compras/services/notifications.py` without being
  imported (lines 39 and 49). The two notices that use it are not modelled.
- The lot view compares states without regard to case (`VistasLote`).
- `enviar_correo_con_template` passes a single address string through
  `list()`, which mails each of its characters (`CorreoClientes.CadenaSeParte`).
- `_elegir_cantidad` in `Compras/comodin/utils_pedido.py` ignores its policy
  argument (`UtilsPedido`).

## Model

| member | source | states |
|---|---|---|
| ActualizarProveedores.Leer | Compras/services/Actualizar_proveedores.py:86-88 | code and supplier are stripped; a brand exists only when the cell is non-empty, and is then stripped |
| ActualizarProveedores.Leidas | Compras/services/Actualizar_proveedores.py:85-88 | every row is read the same way, in order |
| ActualizarProveedores.NombreMarca | Compras/services/Actualizar_proveedores.py:88-114 | a brand handled is never empty |
| ActualizarProveedores.PrimerCodigoPrevio | Compras/services/Actualizar_proveedores.py:91-92 | a supplier already seen keeps the code of the first row naming it |
| ActualizarProveedores.PasoProveedorConjuntos | Compras/services/Actualizar_proveedores.py:91-111 | one row adds its supplier name to those seen and stored, and creates it only when it was neither seen nor stored |
| ActualizarProveedores.ProveedoresVistos | Compras/services/Actualizar_proveedores.py:85-111 | every named supplier of the rows is seen and ends stored |
| ActualizarProveedores.PasoCreados | Compras/services/Actualizar_proveedores.py:101-111 | one row keeps the created suppliers equal to the new names seen, and the counter equal to their number |
| ActualizarProveedores.ProveedoresCreados | Compras/services/Actualizar_proveedores.py:101-111 | the suppliers created are exactly the named ones not stored before, and `proveedores_creados` is their number |
| ActualizarProveedores.ProveedoresEfecto | Compras/services/Actualizar_proveedores.py:91-111 | each supplier is handled once, from its first row: a stored one takes that row's code, an unknown one is created with it, the others stay unchanged |
| ActualizarProveedores.RecodificadoUno | Compras/services/Actualizar_proveedores.py:91-100 | after one more row, a stored supplier named by the rows carries the code of the first row naming it, whether that row is an earlier one or this one |
| ActualizarProveedores.ActualizadosCuenta | Compras/services/Actualizar_proveedores.py:94-100 | `proveedores_actualizados` is the number of stored suppliers whose code the first row naming them changes |
| ActualizarProveedores.MarcasEfecto | Compras/services/Actualizar_proveedores.py:113-121 | every brand of the rows ends stored; only absent ones are created, once each, and `marcas_creadas` counts them |
| ActualizarProveedores.RegistrarFilas | Compras/services/Actualizar_proveedores.py:80-121 | the one-pass row loop leaves what the supplier and brand recurrences define |
| ActualizarProveedores.Relaciones | Compras/services/Actualizar_proveedores.py:126-131 | the pair loop collects exactly the (supplier, brand) pairs of rows that name both |
| ActualizarProveedores.RelacionesNombradas | Compras/services/Actualizar_proveedores.py:126-131 | every pair names a supplier and a brand of the rows |
| ActualizarProveedores.DistintasCardinal | Compras/services/Actualizar_proveedores.py:160-162 | a list without repetitions has as many elements as its set |
| ActualizarProveedores.AsignarPar | Compras/services/Actualizar_proveedores.py:149-158 | one pair adds, for each seller, the assignment they lack, and adds nothing for any other pair |
| ActualizarProveedores.CrearAsignaciones | Compras/services/Actualizar_proveedores.py:140-158 | the new assignments are every found pair with every seller lacking it; pairs missing a supplier or brand are skipped; with distinct sellers the count is exact |
| ActualizarProveedores.CandidatasMas | Compras/services/Actualizar_proveedores.py:142-158 | handling one more pair adds exactly its assignments |
| ActualizarProveedores.ParesResueltos | Compras/services/Actualizar_proveedores.py:142-147 | after the row loop no pair of the rows is skipped: its supplier and brand both exist |
| ActualizarProveedores.ActualizarProveedoresDesdeIcg | Compras/services/Actualizar_proveedores.py:7-177 | no connection, a connection error text and empty data each give their message; otherwise the counters are those of the loops, and assignments are made only with sellers and something new |
| Bitacora.EstadosDeclarados | SoporteTI/models.py:84-95 | the four declared states are exactly the choice values, and the declared default (the first pair itself) is none of them |
| Bitacora.Sellar | SoporteTI/models.py:100-102 | an existing stamp is kept; a missing one is set to the save time exactly when the ticket is saved as solved or cancelled |
| Bitacora.AbiertoNoSella | SoporteTI/models.py:101 | saving in an open state never sets the stamp |
| Bitacora.SelloEstable | SoporteTI/models.py:100-102 | once set, the stamp survives every later save, in any state |
| Bitacora.Binnacle.constructor | SoporteTI/models.py:95-97 | a new ticket has the declared default state and no stamp |
| Bitacora.Binnacle.Save | SoporteTI/models.py:100-103 | the state is untouched and the stamp becomes what `Sellar` gives for the save time |
| CalculoSugerido.StockNormalizado | Compras/services/calculo_sugerido.py:24-25 | a missing or zero stock counts as 0, any other value as itself |
| CalculoSugerido.EmbalajeNormalizado | Compras/services/calculo_sugerido.py:26-84 | a missing or non-positive pack size counts as 1, a positive one as itself; the result is at least 1 |
| CalculoSugerido.SugeridoInteligente | Compras/services/calculo_sugerido.py:4-67 | a suggestion is never negative; the failure case is the division by zero |
| CalculoSugerido.SinFaltantesCero | Compras/services/calculo_sugerido.py:29-33 | with stock at or above the maximum the suggestion is 0 |
| CalculoSugerido.CajaCompleta | Compras/services/calculo_sugerido.py:37-49 | a pack that fits under the maximum gives whole packs, at least 80% of the missing units and less than the missing units plus a pack; it is one pack under the ceiling exactly when the "one box less" rule fires |
| CalculoSugerido.MediaCaja | Compras/services/calculo_sugerido.py:53-67 | a pack above the maximum gives the least multiple of the half pack (the quarter pack when half still exceeds the maximum and a quarter is positive) covering the missing units |
| CalculoSugerido.DivisionPorCeroSiYSoloSi | Compras/services/calculo_sugerido.py:54-64 | the program divides by zero exactly when units are missing, the pack size is 1 and the maximum is below 1 |
| CalculoSugerido.AjustarConEmbalaje | Compras/services/calculo_sugerido.py:70-88 | the adjusted suggestion is never negative |
| CalculoSugerido.AjustarEsMinimoMultiplo | Compras/services/calculo_sugerido.py:84-88 | a positive base is raised to the least whole number of packs covering it |
| CalculoSugerido.AjustarSinBase | Compras/services/calculo_sugerido.py:81-82 | a missing or non-positive base gives 0 |
| Calendario.DiasDelMes | presupuesto/utils.py:40 | a month has 28 to 31 days, and 29 exactly for February of a leap year |
| Calendario.DiaSemana | presupuesto/utils.py:82-83 | a weekday is between 0 and 6 |
| Calendario.DiaSiguiente | presupuesto/utils.py:82-83 | the next day of the month is the next weekday |
| Calendario.DiaSemanaDelMes | presupuesto/utils.py:80-83 | stepping `i` days from the first of the month moves the weekday by `i` modulo 7 |
| Calendario.DiasConocidos | presupuesto/utils.py:83 | Monday is 0: 1 January 2024 is day 0 |
| Clasificacion.Activas | Compras/utils.py:33 | the rules kept are exactly the active ones of the table |
| Clasificacion.ReglasEnOrden | Compras/utils.py:33 | the rules are visited sorted by `orden` and are exactly the active ones |
| Clasificacion.PrimeraClaseCubre | Compras/utils.py:34-36 | the first rule whose `[umbral_minimo, umbral_maximo)` holds the share decides the class |
| Clasificacion.PrimeraClaseDefecto | Compras/utils.py:37 | with no rule covering the share the class is `C` |
| Clasificacion.ClaseDeRegla | Compras/utils.py:32-37 | the class found is `C` or the class of an active rule covering the share |
| Clasificacion.CampoClasificacion | Compras/utils.py:39-46 | the upper-cased (not stripped) name of one of the four warehouses gives its classification column; any other gives `None` |
| Clasificacion.CampoComoPedido | Compras/utils.py:39-46 | for a name without surrounding blanks it agrees with the order helper's look-up |
| Clasificacion.ActualPorAlmacen | Compras/utils.py:48-86 | a known warehouse reads its own classification field; any other has none |
| Clasificacion.QuitarComas | Compras/utils.py:89-95 | the cleaned amount holds no comma |
| Clasificacion.QuitarComasUnir | Compras/utils.py:89-95 | comma removal works piece by piece |
| Clasificacion.QuitarComasNada | Compras/utils.py:89-95 | text without commas is unchanged |
| Clasificacion.PrefijoDigitos | Compras/utils.py:96-98 | the digit prefix read is the longest one |
| Clasificacion.LeerEntero | Compras/utils.py:96-98 | digits followed by neither a digit, a point nor an `e`/`E` read as their value |
| Clasificacion.CastDesdeDigito | Compras/utils.py:96-98 | text starting with a digit is read without sign handling |
| Clasificacion.CastNumero | Compras/utils.py:96-98 | a number's digits followed by text that starts neither a decimal part nor an exponent read as that number |
| Clasificacion.CastNoNumero | Compras/utils.py:96-98 | text whose first character is neither an SQLite blank, a digit, a sign nor a point reads 0 |
| Clasificacion.ImporteNum | Compras/utils.py:89-98 | a missing amount is NULL, a present one has the value SQLite's `CAST(... AS REAL)` reads from it without its commas |
| Clasificacion.SaltarBlancos | Compras/utils.py:96-98 | only SQLite's blanks (space, `\t`, `\n`, `\v`, `\f`, `\r`) are skipped before the number |
| Clasificacion.BlancosSql | Compras/utils.py:96-98 | every SQLite blank is a Python blank, but `\x1c` is not an SQLite blank |
| Clasificacion.Exponente | Compras/utils.py:96-98 | text not starting with `e`/`E` carries no exponent |
| Clasificacion.EscalarPot10 | Compras/utils.py:96-98 | scaling by `e` multiplies by `10^e`, or divides by `10^-e` for a negative `e` |
| Clasificacion.LeerPartes | Compras/utils.py:96-98 | digits with no decimal part read as their value scaled by the exponent that follows |
| Clasificacion.CastCientifica | Compras/utils.py:96-98 | digits, `e`/`E`, an optional sign and digits read as the digits times ten to the signed exponent, as `sqlite3AtoF` does |
| Clasificacion.CastExponenteVacio | Compras/utils.py:96-98 | an `e` with no exponent digit is not part of the number: `1e` and `1e+` read 1 |
| Clasificacion.ImporteCientifico | Compras/utils.py:88-98 | an amount stored as Python writes a float in scientific notation (`5e-05`, `1e+16`) reads as that scaled value, not as its leading digits |
| Clasificacion.SeparadorNoSeleccionado | Compras/utils.py:88-101 | an amount starting with one of `\x1c`–`\x1f` reads 0 in SQLite, so the row is never selected |
| Clasificacion.ImporteMiles | Compras/utils.py:88-98 | an amount written with a thousands comma reads as the whole number |
| Clasificacion.CastDigitos | Compras/utils.py:96-98 | a run of digits reads as its value |
| Clasificacion.ValorUnir | Compras/utils.py:96-98 | the value of two digit strings written one after the other |
| Clasificacion.Seleccion | Compras/utils.py:68-108 | the selected rows keep table order and each meets the query's conditions |
| Clasificacion.SeleccionExacta | Compras/utils.py:68-108 | a row is selected exactly when it belongs to the process, is not discontinued, has a department and a warehouse outside the exclusions, a positive amount and a current class outside I, T, R |
| ClasificacionProceso.AntesOrdenDebil | Compras/utils.py:109 | the key `(seccion, almacen, -importe)` is a strict weak order, so the sort is well defined |
| ClasificacionProceso.MayorImporteOrdenDebil | Compras/utils.py:118 | the key `-importe` is a strict weak order |
| ClasificacionProceso.Pct | Compras/utils.py:121 | the share is the amount as a percentage of a positive total, 0 for a non-positive total |
| ClasificacionProceso.Unidades | Compras/utils.py:143 | missing units stay missing; present ones are truncated toward zero on save |
| ClasificacionProceso.FilasHastaEn | Compras/utils.py:118-148 | the row of the i-th article does not depend on how many follow it |
| ClasificacionProceso.ProcesarGrupo | Compras/utils.py:114-148 | the group loop writes, for each article by descending amount, its share, running cumulative share and class |
| ClasificacionProceso.TotalOrdenar | Compras/utils.py:115-118 | sorting a group does not change its total |
| ClasificacionProceso.AcumuladoParcial | Compras/utils.py:116-123 | the running share after k articles is their amount as a percentage of the group total |
| ClasificacionProceso.AcumuladoMonotono | Compras/utils.py:123 | with non-negative amounts the running share never decreases |
| ClasificacionProceso.GrupoDescendente | Compras/utils.py:118 | within a group the rows come by descending amount |
| ClasificacionProceso.GrupoCreciente | Compras/utils.py:116-145 | within a group of positive amounts the cumulative share never decreases |
| ClasificacionProceso.GrupoCien | Compras/utils.py:144-145 | in a non-empty group of positive amounts the last cumulative share is exactly 100 (exact arithmetic) |
| ClasificacionProceso.Upsert | Compras/utils.py:130-148 | the row takes the new values under (code, warehouse); a stored row keeps its confirmation, a new one starts unconfirmed; other rows are untouched |
| ClasificacionProceso.GuardarFilas | Compras/utils.py:130-148 | the upsert calls of a group apply in turn |
| ClasificacionProceso.UpsertUnir | Compras/utils.py:112-148 | upserting two runs of rows is upserting their concatenation |
| ClasificacionProceso.Ultima | Compras/utils.py:130-148 | the last row written for a key exists exactly when some row has that key |
| ClasificacionProceso.UpsertPuntual | Compras/utils.py:130-148 | after the upserts a key holds its last row with its old confirmation, or its old row untouched |
| ClasificacionProceso.UpsertIdempotente | Compras/utils.py:130-148 | upserting the same rows again changes nothing: a re-run adds no duplicates |
| ClasificacionProceso.UpsertClaves | Compras/utils.py:130-148 | the stored keys are the old ones plus those of the rows written |
| ClasificacionProceso.ProcesarClasificacion | Compras/utils.py:61-152 | the run computes what `Procesar` defines: the sort's or the first upsert's error, or sort, group, walk, upsert, state `procesado` |
| ClasificacionProceso.ReejecutarIgual | Compras/utils.py:130-152 | a successful run ends the process `procesado`, and running it again changes nothing |
| ClasificacionProceso.FallaSiMezcla | Compras/utils.py:109-135 | a run fails exactly when some selected article has no section: `TypeError` when present sections are selected too (the sort cannot compare them), `IntegrityError` when every section is missing (the NOT NULL `seccion` column of the processed table) |
| ClasificacionProceso.ClavesPermutacion | Compras/utils.py:109-118 | reordering the articles keeps their keys |
| ClasificacionProceso.ClavesGrupo | Compras/utils.py:118-148 | a group writes one row key per article key |
| ClasificacionProceso.ClavesDeGrupos | Compras/utils.py:112-148 | the groups together write the keys of all their articles |
| ClasificacionProceso.ClavesDelProceso | Compras/utils.py:61-148 | after a run the table holds the old rows plus one per (code, warehouse) of the selected articles, and nothing else |
| ClasificacionProceso.ClasesDeGrupos | Compras/utils.py:123-146 | every row written carries the class its own cumulative share falls into |
| ClasificacionProceso.GuardadoCoherente | Compras/utils.py:130-148 | a key written by coherent rows ends holding a coherent row with its old confirmation |
| ClasificacionProceso.ClavesDeSeleccion | Compras/utils.py:108-148 | the keys of the selected articles are the keys of the rows written |
| ClasificacionProceso.ClaseGuardada | Compras/utils.py:61-148 | a selected article's stored row holds the class its cumulative share falls into |
| ClienteIcg.O | service/clientICG.py:42 | `o or d`: a set, non-empty value is kept, anything else gives the default |
| ClienteIcg.NombreCompletoCuatro | service/clientICG.py:42-355 | with all four parts set and no surrounding blanks, the full name is the parts separated by single spaces |
| ClienteIcg.NombreSinSegundo | service/clientICG.py:355 | a missing middle name leaves two spaces between the first name and the first surname |
| ClienteIcg.TipoCliente | service/clientICG.py:260-397 | the ICG type is 20 exactly for `Colaborador`, 5 exactly for `Empresa`, 14 for anything else |
| ClienteIcg.Interno | service/clientICG.py:166-169 | `CLIENTE_INTERNO` is `T` exactly for a `Colaborador`, `F` otherwise |
| ClienteIcg.NombreColumna | service/clientICG.py:363-398 | no column name holds a placeholder |
| ClienteIcg.Posicion | service/clientICG.py:362-399 | each column has its place in the order the program appends them |
| ClienteIcg.FiltrarMiembro | service/clientICG.py:362-399 | a column/value pair is appended exactly when its condition holds |
| ClienteIcg.CamposSegunDatos | service/clientICG.py:362-399 | the update sets a column exactly when its field is truthy (the name columns on a first name or first surname), to the full name, the stripped address, the field or the type code |
| ClienteIcg.FiltrarVacio | service/clientICG.py:401-403 | nothing is appended exactly when no condition holds |
| ClienteIcg.Asignaciones | service/clientICG.py:405 | one `COL = ?` assignment per column |
| ClienteIcg.SinCambios | service/clientICG.py:401-403 | the update is `No hay cambios` exactly when no column is to be set |
| ClienteIcg.MarcasJoin | service/clientICG.py:405 | the SET clause holds one placeholder per column |
| ClienteIcg.MarcasSentencia | service/clientICG.py:405-407 | the statement holds exactly one placeholder per parameter, the customer code last |
| ClienteIcg.ReemplazarPrimera | service/clientICG.py:418 | `replace('?', r, 1)` leaves text without a placeholder unchanged |
| ClienteIcg.MostrarSql | service/clientICG.py:410-418 | the display loop computes `MostrarComoEscrito`, each value replacing the first `?` of the text built so far |
| ClienteIcg.MarcaEnValor | service/clientICG.py:410-418 | a shown value holding `?` takes the next value's place: `? ?` with `a?`, `b` shows `'a'b'' ?`, not `'a?' 'b'` |
| ClienteIcg.SustitucionIntencionada | service/clientICG.py:410-418 | the intended display of the same example is `'a?' 'b'` |
| ClienteIcg.ComoEscritoSinMarcas | service/clientICG.py:410-418 | when no value shows a `?` the display as written is the intended one |
| ClienteIcg.SustituirCompleto | service/clientICG.py:405-418 | the intended display leaves no placeholder when there are enough values |
| ClienteIcg.Truncar | service/clientICG.py:135 | `int(max_distance)` truncates toward zero |
| ClienteIcg.PrimeraZona | service/clientICG.py:127-144 | the zone chosen contains the customer and no earlier zone does; none is chosen only when no zone contains them |
| ClienteIcg.DeterminarSucursal | service/clientICG.py:86-159 | the checks in source order give what `Sucursal` defines: `CALDAS` on missing or out-of-range coordinates, a failed query or no zone |
| ClienteIcg.BuscarZona | service/clientICG.py:127-149 | the zone loop returns at the first zone the customer is in |
| ClienteIcg.PrimeraEn | service/clientICG.py:142-144 | the first containing zone is the one returned |
| ClienteIcg.NingunaEn | service/clientICG.py:157-159 | with no containing zone nothing is returned |
| ClienteIcg.SucursalEsPrimera | service/clientICG.py:86-159 | the store is a zone's name for a valid position inside it with no earlier zone containing it |
| ClienteIcg.TarjetaSoloSi | service/clientICG.py:27-83 | a card is issued exactly when asked for, none exists, the type is `Cliente` or `Colaborador`, the lookup answers and nothing fails; its id is one above the highest |
| ClienteIcg.ClientesNoFideliza | service/clientICG.py:48-261 | a `Clientes` customer (type 14) is refused a card as a company |
| ClienteIcg.ErrorDataCuentaComoExistente | service/clientICG.py:24-72 | a failed lookup answers `error Data`, which counts as an existing customer |
| ClientesModelos.SecuenciaInicial | clientes/models.py:9-11 | the default last code lies below the default end of the range |
| ClientesModelos.GenerarCodigoAlfanumerico | clientes/models.py:131-135 | a code is four digits then three uppercase letters, the ones drawn |
| ClientesModelos.InicioDia | clientes/models.py:143-144 | the day of a moment starts at or before it and lasts one day |
| ClientesModelos.Invalidadas | clientes/models.py:153-156 | the bulk statements never add a code |
| ClientesModelos.NuevaClave | clientes/models.py:162 | a new row takes a key above every key in use |
| ClientesModelos.CodigoTemporal.constructor | clientes/models.py:137-139 | a new object has no key, no code and no expiry |
| ClientesModelos.CodigoTemporal.Save | clientes/models.py:148-162 | the table and the object end as `Guardar` says: refused when a code was created today, otherwise invalidation, generation and insert or rewrite |
| ClientesModelos.TablaCodigos.constructor | clientes/models.py:130-170 | the table holds the rows given |
| ClientesModelos.TablaCodigos.CreadoHoyEnTabla | clientes/models.py:141-146 | the query answers whether a code was created during the current day |
| ClientesModelos.TablaCodigos.Invalidar | clientes/models.py:153-156 | expired codes are deleted and active ones expire now |
| ClientesModelos.TablaCodigos.Insertar | clientes/models.py:162 | the insert appends the row under the first unused key |
| ClientesModelos.TablaCodigos.Actualizar | clientes/models.py:162 | the update rewrites the row of the object's key |
| ClientesModelos.GuardarRechaza | clientes/models.py:141-150 | `save` refuses exactly when a code was created today |
| ClientesModelos.ReguardarHoy | clientes/models.py:141-150 | re-saving a code created today is refused, although it is the same code |
| ClientesModelos.InvalidadasNoValidas | clientes/models.py:153-165 | after the bulk statements no earlier code is valid from now on |
| ClientesModelos.InvalidadasConserva | clientes/models.py:153-156 | exactly the expired codes are deleted |
| ClientesModelos.GuardarNuevo | clientes/models.py:148-162 | a new code gets a fresh key and is valid for exactly ten hours; every other code is invalid from now on |
| ClientesModelos.GuardarExistente | clientes/models.py:148-162 | a saved object's own row is rewritten and the others stay where they are |
| ClientesUtils.ObtenerOCrear | clientes/utils.py:6 | the stored row is used, or a fresh one with the field defaults |
| ClientesUtils.GenerarContrato | clientes/utils.py:4-14 | a call succeeds exactly when the code after the last one is within the range, and then returns and stores it; otherwise it raises and nothing changes |
| ClientesUtils.PrimerCodigo | clientes/utils.py:6-14 | the first code ever handed out is 51500002 |
| ClientesUtils.SucesivosCrecientes | clientes/utils.py:4-14 | successive codes are strictly increasing, above the last stored code and within the range, and the row ends at the last of them |
| DictHelpers.GetItem | presupuesto/templatetags/dict_helpers.py:7-16 | a dictionary answers its value for a present key and `None` for a missing one; anything else answers `None` |
| DictHelpers.GetItemTrasGuardar | presupuesto/templatetags/dict_helpers.py:14-15 | a key just stored reads back its value; other keys read as before |
| DictHelpers.GetItemEncontrado | presupuesto/templatetags/dict_helpers.py:7-16 | a lookup gives something other than `None` exactly for a dictionary holding the key with a non-`None` value |
| ClientesUtils.TablaSecuencia.constructor | clientes/models.py:9-11 | the table holds the stored sequence row given, if any |
| ClientesUtils.TablaSecuencia.GenerarNuevoCodcliente | clientes/utils.py:4-14 | the returned code and the stored row afterwards are what `Generar` gives for the row before |
| CorreoClientes.CorreoCliente | clientes/correo.py:7-45 | a customer not yet updated gets the welcome subject and template, an updated one the update notice; the only recipient is the customer's address |
| CorreoClientes.NoVaciasMiembro | clientes/correo.py:65 | a piece is kept exactly when it is non-empty |
| CorreoClientes.NormalizarTexto | clientes/correo.py:63-65 | recipients from a string are exactly its non-empty stripped comma-separated pieces, none holding a comma or surrounding blanks |
| CorreoClientes.SinArrobaSeConserva | clientes/correo.py:65 | a piece without `@` is still kept as a recipient |
| CorreoClientes.UnaPiezaSeConserva | clientes/correo.py:65 | a non-empty text with no comma and no surrounding blanks is normalised to itself as the only recipient |
| CorreoClientes.EnviarCorreoHtml | clientes/correo.py:47-82 | the call always returns normally, with the given subject and body and the normalised recipients |
| CorreoClientes.ListaDe | clientes/correo.py:100 | a list is used as given; a string becomes one recipient per character |
| CorreoClientes.CadenaSeParte | clientes/correo.py:100 | a single address passed as a string is never itself a recipient |
| CorreoClientes.EnviarConTemplate | clientes/correo.py:84-103 | a send error propagates; otherwise the message carries the subject, the rendered body and `list(destinatario)` |
| CorreoRenderizado.AceptablesMiembro | automatizaciones/utils.py:24 | a piece is kept exactly when it is non-empty and holds an `@` |
| CorreoRenderizado.NormalizarTexto | automatizaciones/utils.py:22-24 | recipients from a string are exactly the stripped pieces that are non-empty and hold an `@`, with no comma or surrounding blanks |
| CorreoRenderizado.EnviarContrato | automatizaciones/utils.py:6-61 | no recipients gives `False` with nothing sent; an empty template raises `ValueError`; `True` exactly when the backend sent at least one message to the normalised recipients |
| CorreoRenderizado.SinArroba | automatizaciones/utils.py:24-28 | a recipient string without any `@` gives `False` and sends nothing |
| CorreoRenderizado.Enviar | automatizaciones/utils.py:6-61 | the normalisation loop and the guards in source order yield what `EnviarCorreoRenderizado` defines |
| Exports.Naive | Compras/services/exports.py:11-16 | an aware date-time becomes a naive one |
| Exports.Cellify | Compras/services/exports.py:27-46 | `None` becomes `""`, scalars and dates stay, aware values lose their zone, models and query sets become text, a collection is joined or raises `TypeError` |
| Exports.CellifyTodos | Compras/services/exports.py:45 | a collection that goes through keeps one value per element |
| Exports.CellifyExcel | Compras/services/exports.py:27-46 | whatever `_cellify` returns is of a kind a cell takes (no `None`, no time zone, no collection); whether its text is accepted is decided by `Anexar` |
| Exports.CellifyFijo | Compras/services/exports.py:28-37 | a value already of a kind a cell takes is left as it is |
| Exports.CellifyIdempotente | Compras/services/exports.py:27-46 | `_cellify` is idempotent |
| Exports.CellifyHoraLocal | Compras/services/exports.py:13-16 | an aware date-time becomes the server's wall-clock reading of the same moment, without a zone |
| Exports.CellifyTodosOk | Compras/services/exports.py:45 | the join's `map` goes through exactly when every element cellifies, and then holds their results |
| Exports.ColeccionUnida | Compras/services/exports.py:44-45 | a collection is joined exactly when every element cellifies to text |
| Exports.ListaConNumero | Compras/services/exports.py:44-45 | a list holding a number makes the join raise `TypeError` |
| Exports.Celdas | Compras/services/exports.py:68-110 | one cell per column |
| Exports.FilaAlineada | Compras/services/exports.py:51-110 | the row has one cell per header, and the `Almacén` cell is `cod-nombre` of the warehouse |
| Exports.CeldaAlmacen | Compras/services/exports.py:73 | a text warehouse code and name give the cell `cod-nombre` |
| Exports.Reunir | Compras/services/exports.py:70-110 | the list is built left to right: a row exists when every cell does, and the first cell that raises stops it |
| Exports.FilaDe | Compras/services/exports.py:68-110 | a row has one value of a cell kind per header, unless a cell raises |
| Exports.CeldaExcel | Compras/services/exports.py:70-110 | every cell built is of a kind a cell takes; its text is checked by `Anexar` |
| Exports.Cabecera | Compras/services/exports.py:123 | the first row is the headers |
| Exports.Recortado | Compras/services/exports.py:130 | a cell keeps a prefix of its text of at most 32767 characters, all of a shorter one |
| Exports.Anexar | Compras/services/exports.py:130 | `ws.append` of a built row: the building error, `IllegalCharacterError` exactly when a cell's kept text holds a control character `openpyxl` refuses, or the row as stored |
| Exports.AnexarSinCambios | Compras/services/exports.py:130 | a row whose texts are at most 32767 characters and free of control characters is stored as it is |
| Exports.TextoRechazado | Compras/services/exports.py:130 | a refused control character within the first 32767 characters makes the text refused |
| Exports.CorteAntesDeRevisar | Compras/services/exports.py:130 | the text is cut before it is checked: a character past the 32767th is never looked at |
| Exports.LongitudesIndice | Compras/services/exports.py:134 | the lengths of a column are those of its cells, `None` counting 0 |
| Exports.Maximo | Compras/services/exports.py:134 | the maximum bounds every length of the column |
| Exports.MaximoAlcanzado | Compras/services/exports.py:134 | the maximum is the length of some cell of the column |
| Exports.Ancho | Compras/services/exports.py:135 | a width is between 10 and 60, and at least the longest length plus 2 unless capped |
| Exports.AnchosCubren | Compras/services/exports.py:133-135 | every cell fits its column unless the column is capped at 60 |
| Exports.AnchoColumna | Compras/services/exports.py:134-135 | the loop over a column gives `min(max(10, max_len + 2), 60)` |
| Exports.EscribirHoja | Compras/services/exports.py:113-135 | the header row, one row per line as its cells store it (the first line whose row raises, in building or in `ws.append`, aborts the export), then one width per column |
| Exports.AnchosDeIndice | Compras/services/exports.py:133-135 | the j-th width is that of column j |
| Exports.Anchos | Compras/services/exports.py:133-135 | one width per column, each computed from that column |
| Exports.ExportarLineas | Compras/services/exports.py:113-140 | `export_lines_to_xlsx` with `_row_from_linea`: header plus one stored row per line, one width per column, or the error of the first line whose row raises, `IllegalCharacterError` included |
| Exports.AnchosAcotados | Compras/services/exports.py:135 | every width is between 10 and 60 |
| FiltrosLineas.TodasCumplen | Compras/admin.py:448-473 | the unfiltered list keeps every line, NULL column included |
| FiltrosLineas.NuloNoCumple | Compras/admin.py:450-481 | any other condition drops the lines whose column is NULL |
| FiltrosLineas.RangoSugeridoEntre | Compras/admin.py:454-455 | `a-b` with two numbers selects exactly the values from `a` to `b`, both included |
| FiltrosLineas.RangoDePartes | Compras/admin.py:454-455 | a value splitting into two integers around one `-` is an inclusive range |
| FiltrosLineas.RangoSugeridoSinGuion | Compras/admin.py:454 | a value with no `-` and none of the fixed forms raises on unpacking |
| FiltrosLineas.OpcionesSugerido | Compras/admin.py:437-455 | every choice offered is read as its band |
| FiltrosLineas.BandasSugeridoParticion | Compras/admin.py:437-455 | a whole non-negative quantity falls in exactly one offered band |
| FiltrosLineas.BandaSugerido | Compras/admin.py:437-444 | every quantity is assigned one of the offered bands |
| FiltrosLineas.EntreBandasSugerido | Compras/admin.py:437-455 | a fractional quantity between 100 and 101 is in no band |
| FiltrosLineas.CostoDesconocido | Compras/admin.py:482 | an unknown value keeps every line |
| FiltrosLineas.BandasCostoParticion | Compras/admin.py:462-481 | a non-negative cost not strictly between 0 and 1 is kept by exactly one choice; one million belongs to `1-1M` only |
| FiltrosLineas.CostoSinBanda | Compras/admin.py:462-481 | a cost strictly between 0 and 1 is kept by no choice |
| FormularioLineas.Dec | Compras/admin.py:937-940 | an absent input gives no value; `None`, `''` and `'None'` are absent and a comma reads as the decimal point (with DecSinFiltro, same parse as the unfiltered one) |
| FormularioLineas.ParseDecimalEntero | Compras/admin/sugeridos.py:455-461 | text with no point is read by `Decimal` as the integer `int` reads, so a stored whole number reads back as itself |
| FormularioLineas.ParseDecimalFraccion | Compras/admin/sugeridos.py:455-461 | `a.f` reads as `a + f / 10^len(f)` |
| FormularioLineas.ParseDecimalPartes | Compras/admin/sugeridos.py:455-461 | an unsigned stripped text split by its one point into two digit runs reads as the value of those digits |
| FormularioLineas.DecSinFiltro | Compras/admin.py:985-991 | the internal quantity, parsed without `_dec`'s filter, gets the same value or the same failure as through `_dec` |
| FormularioLineas.IdDeSuClave | Compras/admin.py:914-921 | the key `prefix_<id>` of an input names the line `id` |
| FormularioLineas.SeleccionadaPorSuClave | Compras/admin/sugeridos.py:427-448 | any input sent for a line under a recognised prefix ending in an underscore selects that line |
| FormularioLineas.PrefijosTerminan | Compras/admin/sugeridos.py:427-448 | every recognised prefix, the class inputs of this copy included, ends in an underscore |
| FormularioLineas.SeleccionTieneClave | Compras/admin/sugeridos.py:427-448 | conversely, every selected id is named by some recognised key of the POST |
| FormularioLineas.RolesExclusivos | Compras/admin/sugeridos.py:263-268 | an internal user is never a supplier; otherwise a supplier is whoever is in the supplier group or has a supplier profile |
| FormularioLineas.BloqueadaOmitida | Compras/admin.py:934-935 | a class I line, an ordered line or a line of a confirmed or completed lot is skipped, in both copies and for every role |
| FormularioLineas.QuienEdita | Compras/admin/sugeridos.py:474-491 | a line is edited exactly when it is not locked and the user is a supplier admitted to its supplier or (in the packaged copy) an internal user |
| FormularioLineas.ProveedorSoloSusCampos | Compras/admin.py:941-966 | a supplier's assignments change exactly the fields listed as changed, all of them supplier fields |
| FormularioLineas.SieteCampos | Compras/admin.py:941-966 | each supplier field is listed exactly when its own change condition holds |
| FormularioLineas.SieteCamposProveedor | Compras/admin.py:941-966 | whatever changes, only supplier fields are listed |
| FormularioLineas.InternoSoloSusCampos | Compras/admin/sugeridos.py:574-585 | an internal user's edit changes only the internal quantity and the class, and the class only when it was sent |
| FormularioLineas.CamposPorRol | Compras/admin/sugeridos.py:474-585 | an edited line differs from the stored one only in the listed fields; suppliers touch only their answer, internal users only quantity and class; only a supplier's edit propagates discounts |
| FormularioLineas.CambiosProveedorReales | Compras/admin/sugeridos.py:514-529 | a field listed as changed by a supplier had an input present and different from the stored value |
| FormularioLineas.ValoresProveedor | Compras/admin/sugeridos.py:514-529 | each field the supplier changes holds the parsed value sent |
| FormularioLineas.NuevoSugeridoSoloAB | Compras/admin/sugeridos.py:551-556 | a supplier sets its own quantity only on class A or B lines |
| FormularioLineas.ClaseCProtegida | Compras/admin/sugeridos.py:574-579 | without the `clasificacion_c` group the internal quantity of a class C line is unchanged |
| FormularioLineas.ContinuidadSegunVersion | Compras/admin.py:960-962 | the older copy sets continuity to whether the input was sent non-empty; the packaged copy (sugeridos.py 522-523) can switch it on but never off |
| FormularioLineas.ClaseNormalizada | Compras/admin/sugeridos.py:581-585 | a changed class was sent for that line and is stored stripped and upper-cased |
| FormularioLineas.PropagacionExacta | Compras/admin.py:967-980 | propagation leaves non-siblings alone and sets on each sibling exactly the discounts that were read, nothing else |
| FormularioLineas.PropagarSinCambios | Compras/admin.py:967-980 | a propagation that saves nothing leaves every line as it was |
| FormularioLineas.PropagarHermanos | Compras/admin.py:970-980 | the sibling loop yields the propagated table and counts exactly the siblings whose discounts changed |
| FormularioLineas.TratarLinea | Compras/admin.py:925-994 | one iteration applies the line's decision: its propagation, then its save and count when it changed |
| FormularioLineas.ProcesarPost | Compras/admin.py:908-999 | the POST handler's table, count and message are those of the loop over the selected lines read before it |
| FormularioLineas.AplicarSoloEditables | Compras/admin.py:925-994 | one step keeps the set of lines, writes only editable fields and never lowers the count |
| FormularioLineas.GuardarEditable | Compras/admin.py:925-994 | saving one line that differs only in editable fields keeps the table's lines and changes nothing else |
| FormularioLineas.RecorrerSoloEditables | Compras/admin.py:925-994 | the whole loop writes only editable fields of existing lines |
| FormularioLineas.AplicarMarco | Compras/admin.py:925-994 | one step leaves alone a line that is neither the one edited nor of its article and lot |
| FormularioLineas.RecorrerMarco | Compras/admin.py:925-994 | a line not sent and sharing article and lot with none sent is unchanged |
| FormularioLineas.AplicarSinCambios | Compras/admin.py:992-994 | a step that counts nothing writes nothing |
| FormularioLineas.SinCambiosSinEscrituras | Compras/admin.py:995-998 | when the reply says "No hubo cambios aplicables." the table is as it was |
| FormularioLineas.GuardadoSoloCambios | Compras/admin/sugeridos.py:587-590 | a save writes only the changed fields, so a discount propagated earlier in the same POST survives |
| FormularioLineas.DescuentoPisadoAnterior | Compras/admin.py:967-994 | as written: a discount propagated to a sibling is lost when the sibling's stale copy is saved with all eight fields |
| FormularioLineas.DescuentoConservadoPaquete | Compras/admin/sugeridos.py:531-590 | the copy that saves only changed fields keeps the propagated discount |
| IcgImport.SafeInt | Compras/services/icg_import.py:18-30 | null, NaN, infinities and failed conversions give the default; a boolean gives 0 or 1; any other non-default result is the truncation toward zero of the cell's float value |
| IcgImport.SafeFloat | Compras/services/icg_import.py:32-46 | the result is the default or the cell's float value, never NaN unless the default is, and the default for null-looking text |
| IcgImport.SafeStr | Compras/services/icg_import.py:49-58 | the result is the default or the stripped, non-empty text that does not spell a null |
| IcgImport.SafeStrIdempotente | Compras/services/icg_import.py:49-58 | reading back a text `_safe_str` produced gives the same text |
| IcgImport.SafeIntEntero | Compras/services/icg_import.py:18-46 | an integer cell reads back as itself through `_safe_int` and `_safe_float` |
| IcgImport.SafeIntTrunca | Compras/services/icg_import.py:25-28 | a finite number is read as its truncation, within 1 of it toward zero |
| IcgImport.LecturasCatalogo | Compras/services/icg_import.py:365-367 | one catalogue reading per row, in order |
| IcgImport.RecorrerCatalogo | Compras/services/icg_import.py:361-375 | the first loop yields the catalogue of the rows: suppliers, brands and supplier codes |
| IcgImport.RecorrerLecturasCatalogo | Compras/services/icg_import.py:365-375 | the loop over the readings computes the same catalogue as the fold over them |
| IcgImport.PrimerCodigo | Compras/services/icg_import.py:368-373 | a supplier has a code exactly when one of its rows carries one, and the code kept is that of its first such row |
| IcgImport.NombresDeFilas | Compras/services/icg_import.py:365-375 | each supplier and brand collected is a non-empty name of some row, and only suppliers get codes |
| IcgImport.DefectoAsegurado | Compras/services/icg_import.py:377-389 | the default supplier is always ensured; every other ensured name is a row's supplier |
| IcgImport.AplicarCodIcg | Compras/services/icg_import.py:407-408 | the bulk update keeps the set of suppliers |
| IcgImport.CodIcgIdempotente | Compras/services/icg_import.py:391-408 | after the refresh each catalogued supplier with a code stores it, and a second refresh changes nothing |
| IcgImport.ProveedorId | Compras/services/icg_import.py:438 | an unknown supplier name falls back to the default supplier; a known one with a non-zero id gets its id |
| IcgImport.ConstruirLinea | Compras/services/icg_import.py:445-484 | the new line belongs to the lot, carries the row's codes, starts the three suggestions equal, never has an empty description and takes the supplier id above |
| IcgImport.Lecturas | Compras/services/icg_import.py:421-423 | one reading per row, in order |
| IcgImport.LecturasConsistentes | Compras/services/icg_import.py:421-484 | every reading is consistent with the lot |
| IcgImport.LeerConsistente | Compras/services/icg_import.py:421-484 | one row's line belongs to the lot, carries its codes and starts the three suggestions equal |
| IcgImport.ImportarFilas | Compras/services/icg_import.py:411-490 | the second loop yields exactly the records and counters of the fold over the rows |
| IcgImport.RecorrerLecturas | Compras/services/icg_import.py:416-490 | the loop over the readings computes the records and counters of the fold |
| IcgImport.ImportacionPaso | Compras/services/icg_import.py:421-490 | the fold over one more row is one more step |
| IcgImport.UnContadorPorFila | Compras/services/icg_import.py:421-490 | each row adds to exactly one of inserted, skipped and errors; each insertion appends one record; known pairs only grow |
| IcgImport.SinDuplicados | Compras/services/icg_import.py:426-433 | no pair is inserted twice or when already in the lot; each record has both codes, the lot, and equal suggestions |
| IcgImport.MensajeFinal | Compras/services/icg_import.py:496-503 | the message starts with the header, ends in '.', and carries an error suffix exactly when there were errors |
| IcgImport.ErroresLegibles | Compras/services/icg_import.py:500-501 | the error count can be read back from the message |
| IcgImport.Importar | Compras/services/icg_import.py:131-170 | a missing lot returns its message and inserts nothing; a failed connection marks the lot failed and inserts nothing; a failed query inserts nothing |
| IcgImport.ImportarCuenta | Compras/services/icg_import.py:350-503 | a successful run inserts one record per counted insertion, no pair twice and none already in the lot, and its counters add up to the number of rows |
| IcgImport.CuentaLecturas | Compras/services/icg_import.py:411-490 | from the lot's pairs, the counters add up to the rows and the records are distinct and new |
| ImportConsulta.UnidadCompra | Compras/services/icg_import.py:254 | a missing or zero purchase unit counts as 1, any other is kept; never 0 |
| ImportConsulta.Embalaje | Compras/services/icg_import.py:253-254 | the pack is never 0, and at least 1 when both units are positive |
| ImportConsulta.EmbalajeSeguro | Compras/services/icg_import.py:269 | a non-positive pack counts as 1; a positive one is kept |
| ImportConsulta.Diferencia | Compras/services/icg_import.py:255-258 | the gap to the maximum stock, clamped at 0 |
| ImportConsulta.FactorAlmacen | Compras/services/icg_import.py:259-263 | 1.30 exactly for MERCASUR CALDAS (trimmed, any case), 1.50 otherwise |
| ImportConsulta.SugeridoBase | Compras/services/icg_import.py:277-289 | no gap suggests nothing |
| ImportConsulta.BaseCubreHueco | Compras/services/icg_import.py:280-281 | warehouses 1 and 2 order the least whole number of packs covering the gap |
| ImportConsulta.BaseUmbral | Compras/services/icg_import.py:270-286 | warehouses 3 and 50 land within 0.3 of a pack below and 0.7 above the gap, on a multiple of the pack |
| ImportConsulta.Sugerido | Compras/services/icg_import.py:315-319 | a non-positive base suggests nothing |
| ImportConsulta.Cajas | Compras/services/icg_import.py:320-325 | a non-positive base gives no packs |
| ImportConsulta.CostoLinea | Compras/services/icg_import.py:326-330 | a non-positive base costs nothing |
| ImportConsulta.ColumnasCoherentes | Compras/services/icg_import.py:315-330 | `Sugerido` is `Cajas` packs, the least multiple of the pack covering base times factor, and `CostoLinea` prices it |
| ImportConsulta.Calcular | Compras/services/icg_import.py:253-334 | the computed pack of a row is at least 1 |
| ImportConsulta.InformativaSinPedido | Compras/services/icg_import.py:334 | a row is informative exactly when stock is at or above its maximum, and then suggests no base, packs or cost |
| ImportConsulta.PedidoAlcanzaMaximo | Compras/services/icg_import.py:277-330 | in warehouses 1 and 2 a row below its maximum orders enough to reach it, in whole packs covering base times factor |
| KpiProveedores.VentanaValida | Compras/services/kpi_proveedores.py:21-28 | the window starts and ends on valid first days, the start first |
| KpiProveedores.EnVentanaMismoMes | Compras/services/kpi_proveedores.py:27-33 | a moment is in the half-open window exactly when it falls in the reference year and month |
| KpiProveedores.Contadas | Compras/services/kpi_proveedores.py:31-36 | the lines counted were extracted in the window and have a cost |
| KpiProveedores.SumaCostosConcat | Compras/services/kpi_proveedores.py:35 | the sum of costs over two runs of lines is the sum of their sums |
| KpiProveedores.TotalMesContadas | Compras/services/kpi_proveedores.py:31-36 | the month's total is the sum of the costs of exactly the lines counted (a NULL cost adds nothing, none gives 0) |
| KpiProveedores.TotalMesFuera | Compras/services/kpi_proveedores.py:31-33 | a line of a lot extracted outside the window never changes the total |
| KpiProveedores.TotalMesNoNegativo | Compras/services/kpi_proveedores.py:31-36 | non-negative costs give a non-negative total |
| KpiProveedores.CumplimientoPresupuesto | Compras/services/kpi_proveedores.py:19-47 | the result is in hundredths and within half a hundredth of total over budget times 100 (0 without a positive budget), for the reference date or today |
| KpiProveedores.SinPresupuesto | Compras/services/kpi_proveedores.py:38-43 | without a positive budget the compliance is exactly 0.00 |
| KpiProveedores.PresupuestoCumplido | Compras/services/kpi_proveedores.py:40-47 | spending exactly the budget in the month gives 100.00 |
| ModelosCompras.CodigosEstado | Compras/models.py:11-21 | the stored values and the five process states correspond one to one |
| ModelosCompras.FechaLegible | Compras/models.py:25 | a valid start date prints in 16 characters `YYYY-MM-DD HH:MM` from which each field reads back |
| ModelosCompras.CampoLegible | Compras/models.py:25 | a zero-padded field of width 2 or 4 has that width and reads back as its value |
| ModelosCompras.ProcesoTextoPartes | Compras/models.py:24-25 | the text form starts with `Proceso #<pk> - ` and ends with ` - ` and the stored state |
| ModelosCompras.NuevoFinal | Compras/models.py:101-119 | a new final row is pending, a declared action choice, with no message, and keeps its validation result and identifiers |
| Notificaciones.SafeGet | Compras/services/notifications.py:11-15 | a present attribute gives its value; a missing one or a failing lookup gives the default instead of raising |
| Notificaciones.Y | Compras/services/notifications.py:62-63 | Python's `and` is true exactly when both operands are |
| Notificaciones.LogoDe | Compras/services/notifications.py:60-64 | a logo found is true; `logo_url` wins when true, then `logo.url`, then `get_logo_url()` |
| Notificaciones.BrandAssets | Compras/services/notifications.py:52-72 | succeeds exactly when the logo chain does; the colour is the brand's when it is a `#` string of 4 or 7 characters, else the corporate green; the logo falls back to Mercasur's |
| Notificaciones.LogoPorDefecto | Compras/services/notifications.py:65 | with no logo attribute the Mercasur logo is used |
| Notificaciones.LogoMetodoFalla | Compras/services/notifications.py:63 | a failing `get_logo_url()` raises exactly when the two earlier candidates are false and the method exists |
| Notificaciones.Limpios | Compras/services/notifications.py:148-151 | one stripped e-mail per assignment |
| Notificaciones.Validos | Compras/services/notifications.py:152 | every address kept is non-empty, holds an `@` and comes from the list |
| Notificaciones.Destinatarios | Compras/services/notifications.py:147-152 | every recipient is valid and stripped |
| Notificaciones.DestinatarioSi | Compras/services/notifications.py:147-152 | an address is a recipient exactly when it is valid and some seller's e-mail strips to it |
| Notificaciones.ValidosRepetido | Compras/services/notifications.py:152 | repeating an address adds no recipient |
| Notificaciones.DestinatariosSinDuplicados | Compras/services/notifications.py:148-152 | the same address from two sellers, even with a leading blank, is one recipient |
| Notificaciones.Remitente | Compras/services/notifications.py:8-9 | the configured sender, or a valid notifications address |
| Notificaciones.Asunto | Compras/services/notifications.py:163 | the subject starts with `[Sugerido] Nuevo lote #` |
| Notificaciones.NotificarVendedor | Compras/services/notifications.py:130-190 | nothing is sent exactly when no valid recipient remains (always with no assignment); an error is raised exactly when there are recipients and the brand assets fail; a sent message goes to the recipients, with the subject, sender, reply-to and assets stated |
| Notificaciones.SinCorreosValidos | Compras/services/notifications.py:154-156 | sellers whose e-mails are all blank or lack an `@` get nothing and nothing is raised |
| OrdenesCompra.ClavesDistintas | Compras/admin.py:637-643 | each supplier-warehouse key appears once among the groups |
| OrdenesCompra.ClavesExactas | Compras/admin.py:638-643 | a key has a group exactly when some included line (not class I, positive quantity) has it |
| OrdenesCompra.ClaveDeAlguna | Compras/admin.py:638-643 | every grouped key is the key of some included line |
| OrdenesCompra.ClaveListada | Compras/admin.py:638-643 | the key of every included line gets a group |
| OrdenesCompra.PosicionesExactas | Compras/admin.py:638-643 | a group holds exactly the included lines of its key, in their order |
| OrdenesCompra.PosicionesDeOtra | Compras/admin.py:638-643 | a key no included line has has no lines |
| OrdenesCompra.LineasGeneradas | Compras/admin.py:653-668 | exactly the included lines end ORDENADA; the others are untouched |
| OrdenesCompra.EnAlgunaClave | Compras/admin.py:646-668 | a line belongs to the group of one of some keys exactly when it is included and its key is one of them |
| OrdenesCompra.MarcadasHasta | Compras/admin.py:646-668 | after some groups are written, a line is ORDENADA exactly when one of those groups holds it |
| OrdenesCompra.OrdenesGeneradas | Compras/admin.py:645-682 | one order per key, carrying exactly the key's included lines in order, totalling their costs, with the ICG id only on success, and the lot COMPLETADO |
| OrdenesCompra.TotalGeneracion | Compras/admin.py:652-670 | the order totals add up to the cost of the included lines: grouping loses and duplicates nothing |
| OrdenesCompra.TotalesHasta | Compras/admin.py:646-670 | the totals of the first orders are the group costs of their keys |
| OrdenesCompra.SumaGrupo | Compras/admin.py:652-669 | an order's total is the cost of its group |
| OrdenesCompra.SumaClavesTotal | Compras/admin.py:637-670 | the group costs over all keys add up to the cost of all included lines |
| OrdenesCompra.SumaClavesPaso | Compras/admin.py:637-643 | one more line adds its cost to the sum over distinct keys when its key is one of them |
| OrdenesCompra.AgruparLineas | Compras/admin.py:637-643 | the grouping loop yields the keys in first-appearance order, and for each exactly its included lines' positions |
| OrdenesCompra.EscribirOrden | Compras/admin.py:646-679 | one order: its lines and total as specified, its log record, and its lines marked ORDENADA |
| OrdenesCompra.GenerarOrdenes | Compras/admin.py:636-682 | the generation for one lot is the specified one |
| OrdenesCompra.AccionGenerarOrdenCompra | Compras/admin.py:633-684 | the lots are generated one after the other and the message counts all orders generated |
| OrdenesCompra.GeneracionesUnaMas | Compras/admin.py:633-684 | one more lot appends its generation and adds its orders to the message's count |
| OrdenesCompra.TotalGeneradasSuma | Compras/admin.py:679-684 | the message's count is the number of distinct keys over the selected lots |
| OrdenesCompra.ImportarComoAccion | Compras/admin.py:851-906 | orders are imported exactly when the lot exists and the user has no supplier profile, and then exactly as the lot action does |
| OrdenesCompra.GeneracionEscritaFalla | Compras/admin.py:645-650 | as written, a lot raises `TypeError` at `prov[:8]` exactly when one of its lines is included; a lot that gets through has no order and keeps its lines |
| OrdenesCompra.NumeroOrdenFalla | Compras/admin.py:645-650 | a lot with one included line: the intended generation writes one order, the program as written raises instead |
| PedidosIcg.Round2 | Compras/services/icg_pedidos.py:35-36 | the result is in hundredths and within half a hundredth of the value, a missing value counting as 0 |
| PedidosIcg.ProveedorAprobado | Compras/services/icg_pedidos.py:76 | raises exactly on an approved line with no supplier quantity; true exactly for an approved line with a positive one |
| PedidosIcg.PoliticaElige | Compras/services/icg_pedidos.py:75-90 | each policy's choice: supplier quantity only on an approved line, internal quantity only when positive, otherwise the base or 0; raises exactly when an approved line without supplier quantity is consulted |
| PedidosIcg.PoliticasCoinciden | Compras/services/icg_pedidos.py:75-88 | the two preference policies agree whenever at most one of the preferred quantities is available |
| PedidosIcg.AjustarAEmbalaje | Compras/services/icg_pedidos.py:92-106 | the adjusted quantity is never negative |
| PedidosIcg.AjusteEsMultiplo | Compras/services/icg_pedidos.py:92-106 | 0 for a non-positive quantity, unchanged for a pack of 1, otherwise the pack multiple just below or above, strictly within one pack |
| PedidosIcg.AjusteAbajoMaximo | Compras/services/icg_pedidos.py:100-101 | 'down' gives the greatest pack multiple not above the quantity |
| PedidosIcg.AjusteArribaMinimo | Compras/services/icg_pedidos.py:106 | any other adjustment gives the least pack multiple covering the quantity |
| PedidosIcg.AjusteCercano | Compras/services/icg_pedidos.py:102-105 | 'nearest' gives a pack multiple at least as close as any other, the upper one on a tie |
| PedidosIcg.ElegirCantidad | Compras/services/icg_pedidos.py:70-106 | fails exactly when the policy's choice fails; otherwise not negative |
| PedidosIcg.MaxONada | Compras/services/icg_pedidos.py:62-68 | the largest number used in the series, 0 when there is none |
| PedidosIcg.NextNumPedido | Compras/services/icg_pedidos.py:61-68 | one more than every number already used, 1 for an empty series |
| PedidosIcg.MaxAgregar | Compras/services/icg_pedidos.py:184 | after a header with the next number is inserted, that number is the series' largest |
| PedidosIcg.PrecioYDescuento | Compras/services/icg_pedidos.py:108-118 | the price is the last cost to the cent; the discount is the compound discount to 14 decimals |
| PedidosIcg.DescuentoUnico | Compras/services/icg_pedidos.py:113-116 | with the second and third discount absent or zero, the compound discount is the first |
| PedidosIcg.DescuentoUnicoExacto | Compras/services/icg_pedidos.py:113-118 | and a first discount with at most 14 decimals is kept exactly |
| PedidosIcg.DescuentoConmutativo | Compras/services/icg_pedidos.py:116 | the order of the three discounts does not matter |
| PedidosIcg.DescuentoAcotado | Compras/services/icg_pedidos.py:113-116 | percentages in 0..100 compound to one in 0..100, no smaller than any of them |
| PedidosIcg.FmtDtoTextoVacio | Compras/services/icg_pedidos.py:38-42 | the text is empty exactly for no discount; a negative discount shows two minus signs |
| PedidosIcg.DecimalTexto14Plano | Compras/services/icg_pedidos.py:42 | from 10^-6 on, the discount is printed in plain notation with 14 decimals |
| PedidosIcg.FmtDtoTextoValor | Compras/services/icg_pedidos.py:38-42 | such a discount is written `-<digits>.<14 decimals>%` denoting its value |
| PedidosIcg.ImpuestosDeLinea | Compras/services/icg_pedidos.py:120-132 | `iva`, else `IVA`, else 0; tax type 4 exactly for 0 %, 1 otherwise |
| PedidosIcg.CodigoIcgNumerico | Compras/services/icg_pedidos.py:234 | an all-digit article code is sent as that number |
| PedidosIcg.LineaPedido.Descripcion | Compras/services/icg_pedidos.py:248 | the description is a prefix of at most 250 characters, the whole text when it fits |
| PedidosIcg.Fila | Compras/services/icg_pedidos.py:220-255 | a row's amounts are in cents, its total is untaxed plus tax, no tax at 0 %, and it carries the quantity, number, line id and warehouse |
| PedidosIcg.FilasDeGrupo | Compras/services/icg_pedidos.py:214-257 | at most one row per line |
| PedidosIcg.FilasNumeradas | Compras/services/icg_pedidos.py:214-232 | the rows of an order are numbered 1, 2, ... and each orders a positive quantity |
| PedidosIcg.SumasCuadran | Compras/services/icg_pedidos.py:228-230 | sums of rows in cents are in cents, and the total is the untaxed sum plus the tax sum |
| PedidosIcg.FilasDeGrupoCuadradas | Compras/services/icg_pedidos.py:224-226 | every row of an order balances |
| PedidosIcg.TotalesCuadran | Compras/services/icg_pedidos.py:259-265 | on every header TOTNETO = TOTBRUTO + TOTIMPUESTOS, and TOTBRUTO is the sum of the untaxed rows |
| PedidosIcg.Almacenes | Compras/services/icg_pedidos.py:163-165 | no more warehouses than lines |
| PedidosIcg.AlmacenesExactos | Compras/services/icg_pedidos.py:163-165 | each warehouse appears once, every line's warehouse appears, and nothing else |
| PedidosIcg.DelAlmacenOrigen | Compras/services/icg_pedidos.py:163-165 | a group holds only lines of the lot of that warehouse |
| PedidosIcg.DelAlmacenVacio | Compras/services/icg_pedidos.py:163-165 | a warehouse no line has has an empty group |
| PedidosIcg.EnSuGrupo | Compras/services/icg_pedidos.py:163-165 | each line is in its own warehouse's group |
| PedidosIcg.GrupoValido | Compras/services/icg_pedidos.py:216 | a line that fails in a group fails in the lot |
| PedidosIcg.Validar | Compras/services/icg_pedidos.py:149-161 | success needs a supplier, lines, and computable quantities; no supplier gives its error first |
| PedidosIcg.AcumuladoPaso | Compras/services/icg_pedidos.py:215-257 | one more line appends its row with the next number, when it orders something, and adds it to the running totals |
| PedidosIcg.LineasDelPedido | Compras/services/icg_pedidos.py:214-257 | the line loop succeeds exactly when every quantity is computable and then yields the order's rows and totals |
| PedidosIcg.CrearPedidoCompraDesdeLote | Compras/services/icg_pedidos.py:136-306 | fails exactly when validation does, with its error; otherwise writes exactly the expected orders, rows, lines and lot |
| PedidosIcg.Agrupar | Compras/services/icg_pedidos.py:163-165 | the grouping loop yields the warehouses in first-appearance order, each with its lines in order |
| PedidosIcg.PedidoSiguiente | Compras/services/icg_pedidos.py:182-277 | one more warehouse extends the orders and rows written so far |
| PedidosIcg.EscribirPedido | Compras/services/icg_pedidos.py:184-277 | one warehouse's order is the specified one, or fails when a quantity cannot be computed |
| PedidosIcg.EscribirPedidos | Compras/services/icg_pedidos.py:182-284 | the order loop succeeds exactly when every group is valid and then writes the specified orders numbered after the series' largest |
| PedidosIcg.EscribirSiguiente | Compras/services/icg_pedidos.py:182-277 | one warehouse gets the next free number, or its group fails |
| PedidosIcg.GruposInvalidos | Compras/services/icg_pedidos.py:282-284 | a failing group makes the whole lot fail (the transaction is rolled back) |
| PedidosIcg.TodasValidas | Compras/services/icg_pedidos.py:163-216 | valid groups make all lines valid |
| PedidosIcg.IdsDeGrupo | Compras/services/icg_pedidos.py:216-257 | the ids written for an order are exactly its lines that order something |
| PedidosIcg.EmitidaEnIds | Compras/services/icg_pedidos.py:257 | a line that orders something has its id recorded |
| PedidosIcg.IdsEmitidasOrigen | Compras/services/icg_pedidos.py:257 | every id recorded is that of a line that orders something |
| PedidosIcg.IdsHastaOrigen | Compras/services/icg_pedidos.py:257 | every id written belongs to a line of the lot that orders something |
| PedidosIcg.EmitidaEnIdsHasta | Compras/services/icg_pedidos.py:257 | every line of the warehouses done that orders something has its id written |
| PedidosIcg.PedidoNumerado | Compras/services/icg_pedidos.py:182-277 | the n-th order is for the n-th warehouse, numbered consecutively after the series' largest, with its SUPEDIDO, and balances |
| PedidosIcg.UnPedidoPorAlmacen | Compras/services/icg_pedidos.py:182-304 | one order per distinct warehouse in first-appearance order, consecutive numbers, balanced totals, lot COMPLETADO holding the orders |
| PedidosIcg.OrdenadasExactas | Compras/services/icg_pedidos.py:296-298 | after a run a line is ORDENADA exactly when it ordered something; the others are left as they were |
| PresupuestoAdmin.ConCien | presupuesto/admin.py:55 | every category listed was checked and stored with total 100 |
| PresupuestoAdmin.ConCienTodas | presupuesto/admin.py:45-55 | only 100.00 is ever stored, so the closing filter keeps every checked category |
| PresupuestoAdmin.ConsultarCategoria | presupuesto/admin.py:35-37 | the count and sum of the percentage rows of the category, over every store |
| PresupuestoAdmin.VerificarSumaPorcentajes | presupuesto/admin.py:29-57 | the action's messages and queries are exactly the specified report and evaluation sequence |
| PresupuestoAdmin.VerificadasSon | presupuesto/admin.py:30-45 | a category is listed as right exactly when one of its rows was selected and it passes, and at most once |
| PresupuestoAdmin.EvaluadasVeces | presupuesto/admin.py:31-38 | a passing category is queried once, at its first selected row; a failing one at every selected row |
| PresupuestoAdmin.ErroresSon | presupuesto/admin.py:38-43 | every error names a failing category with its count and sum; a failing category gets one error per selected row of it |
| PresupuestoAdmin.InformeCorrectas | presupuesto/admin.py:55-57 | the closing list is sent exactly when some selected row's category passes |
| PresupuestoAdmin.InformeErrores | presupuesto/admin.py:38-43 | a category gets an error exactly when one of its rows was selected and it fails |
| PresupuestoAdmin.DosSedes | presupuesto/admin.py:35-38 | the count ignores the store: a category right in two stores has 14 rows and is reported as an error |
| PresupuestoAdmin.CuentaConcat | presupuesto/admin.py:37 | the count over two tables is the sum of the counts |
| PresupuestoCalculo.Normalizado | presupuesto/utils.py:49-52 | the budget written back is never negative: a valid non-negative budget is kept, anything else becomes 0 |
| PresupuestoCalculo.Normalizadas | presupuesto/utils.py:48-71 | one normalised entry per input entry |
| PresupuestoCalculo.Validas | presupuesto/utils.py:47-65 | no more valid categories than entries |
| PresupuestoCalculo.ValidarCategorias | presupuesto/utils.py:46-71 | the set-up loop keeps exactly the specified valid categories and normalises every budget |
| PresupuestoCalculo.ValidasOrigen | presupuesto/utils.py:48-65 | every valid category comes from an entry that passes, with its normalised budget and its percentage map |
| PresupuestoCalculo.ValidasCompleta | presupuesto/utils.py:48-65 | every entry that passes (known category, 7 rows) becomes a valid category |
| PresupuestoCalculo.ValidasDistintas | presupuesto/utils.py:48-65 | distinct keys give distinct valid categories |
| PresupuestoCalculo.Conteo | presupuesto/utils.py:78-84 | one count per weekday |
| PresupuestoCalculo.InfoDias | presupuesto/utils.py:79-89 | one entry per day of the month |
| PresupuestoCalculo.RecorrerMes | presupuesto/utils.py:78-89 | the day loop yields the weekday counts and the dated list |
| PresupuestoCalculo.ConteoSuma | presupuesto/utils.py:81-84 | the weekday counts add up to the number of days |
| PresupuestoCalculo.ConteoCerrado | presupuesto/utils.py:81-84 | a weekday `d` places after the first day's occurs `i/7` times, plus one when `d < i%7` |
| PresupuestoCalculo.OcurrenciasMes | presupuesto/utils.py:78-89 | in a month of 28 to 31 days each weekday occurs 4 or 5 times and the counts add up to its length |
| PresupuestoCalculo.Tarifa | presupuesto/utils.py:99-110 | a rate is a whole number of hundredths |
| PresupuestoCalculo.TarifasCategoria | presupuesto/utils.py:98-112 | seven rates per category |
| PresupuestoCalculo.CalcularTarifa | presupuesto/utils.py:99-112 | the inner loop's body computes the specified rate |
| PresupuestoCalculo.CalcularTarifasCategoria | presupuesto/utils.py:98-112 | the weekday loop yields the category's rates |
| PresupuestoCalculo.TablaTarifas | presupuesto/utils.py:92-112 | one row of rates per valid category |
| PresupuestoCalculo.CalcularTarifas | presupuesto/utils.py:92-112 | the category loop fills the specified rate table |
| PresupuestoCalculo.Brutos | presupuesto/utils.py:127-137 | one raw value per valid category |
| PresupuestoCalculo.DiasBrutos | presupuesto/utils.py:114-142 | the raw pass yields each day's raw categories and each category's raw sum over the month |
| PresupuestoCalculo.DiaBruto | presupuesto/utils.py:127-140 | one day's raw categories, each rate added to its category's sum |
| PresupuestoCalculo.Ajustados | presupuesto/utils.py:157-181 | one adjusted value per valid category |
| PresupuestoCalculo.DiaAjustado | presupuesto/utils.py:149-189 | an adjusted day has one value per valid category |
| PresupuestoCalculo.AjustarDia | presupuesto/utils.py:157-185 | the category loop of one day yields the adjusted day and adds each final value to its category's total |
| PresupuestoCalculo.ComponentesMas | presupuesto/utils.py:183-185 | one more category adds its final value to the day's components unless it is `Total Sede` |
| PresupuestoCalculo.DiasAjustados | presupuesto/utils.py:144-191 | the adjustment pass yields the adjusted days, each category's total over them and the grand total |
| PresupuestoCalculo.RedondearTotales | presupuesto/utils.py:193-195 | the final rounding loop yields the specified totals map |
| PresupuestoCalculo.MapaTotalesBusqueda | presupuesto/utils.py:146-195 | with distinct names each category maps to its own rounded total |
| PresupuestoCalculo.MapaTotalesClaves | presupuesto/utils.py:146 | the keys of the totals are exactly the valid categories |
| PresupuestoCalculo.ComponentesSinSede | presupuesto/utils.py:139-185 | the day's components and `Total Sede` split the day's values |
| PresupuestoCalculo.ComponentesIgnoranSede | presupuesto/utils.py:183-185 | changing `Total Sede` leaves the components unchanged |
| PresupuestoCalculo.SumasBrutas | presupuesto/utils.py:116 | one raw sum per valid category |
| PresupuestoCalculo.DiasDe | presupuesto/utils.py:114-191 | one adjusted day per date |
| PresupuestoCalculo.Dias | presupuesto/utils.py:39-191 | one adjusted day per day of the month |
| PresupuestoCalculo.PasadasCompuestas | presupuesto/utils.py:114-191 | the raw pass followed by the adjustment pass gives the specified days |
| PresupuestoCalculo.TablaCentesimal | presupuesto/utils.py:109 | every rate is in hundredths |
| PresupuestoCalculo.TarifaCerca | presupuesto/utils.py:103-109 | a rate is within half a hundredth of the exact share of its weekday |
| PresupuestoCalculo.SumaBrutaCentesimal | presupuesto/utils.py:137 | a sum of rates is in hundredths |
| PresupuestoCalculo.ValorEnDia | presupuesto/utils.py:158-174 | a category's final value on a day: the rate, plus on the last day the budget minus the raw sum, rounded |
| PresupuestoCalculo.SumaPrimeros | presupuesto/utils.py:158-181 | before the last day no value is adjusted: the first final values add up to the raw ones |
| PresupuestoCalculo.CuadreUltimo | presupuesto/utils.py:162-174 | on the last day the rate cancels out, leaving the budget minus the earlier rates |
| PresupuestoCalculo.CategoriaCuadra | presupuesto/utils.py:149-181 | with a budget in hundredths, a category's final daily values add up exactly to its monthly budget |
| PresupuestoCalculo.UltimoValor | presupuesto/utils.py:161-172 | on the last day, with a budget and earlier sum in hundredths, a category's value is exactly what the earlier days left of its monthly budget |
| PresupuestoCalculo.CalculoEsperado | presupuesto/utils.py:34-75 | no result exactly for an invalid month or year or no valid category; budgets normalised once the month is valid; one day per day of the month |
| PresupuestoCalculo.CalcularDias | presupuesto/utils.py:77-191 | steps 2 to 6 yield the specified days, each category's total over them and the grand total |
| PresupuestoCalculo.CalcularPresupuesto | presupuesto/utils.py:15-202 | the whole computation returns the specified result and leaves the input dictionary normalised as specified |
| PresupuestoCalculo.DiaDelMes | presupuesto/utils.py:81-136 | day i+1 carries its date, weekday and weekday name, and each category's name and percentage in input order |
| PresupuestoCalculo.PresupuestoCuadra | presupuesto/utils.py:15-202 | with distinct keys, a passing entry with a budget in hundredths gets a result whose total for its category is exactly that budget |
| PresupuestoUtils.NivelSemaforo | presupuesto/utils.py:210-219 | the band of a compliance percentage is one of the five bands |
| PresupuestoUtils.ClaseSemaforo | presupuesto/utils.py:204-219 | no percentage gives `heatmap-na`, otherwise `heatmap-` followed by the band's digit |
| PresupuestoUtils.SemaforoMonotono | presupuesto/utils.py:210-219 | a higher compliance never falls in a lower band |
| PresupuestoUtils.SemaforoClases | presupuesto/utils.py:204-219 | two percentages get the same class exactly when they fall in the same band |
| PresupuestoUtils.SemaforoEnMeta | presupuesto/utils.py:216-217 | the on-target class is exactly 97 to 101, both inclusive |
| PresupuestoUtils.FormatoDinero | presupuesto/utils.py:691-699 | an unconvertible value gives exactly `-`; any number gives a string starting with `$` |
| PresupuestoUtils.Centavos | presupuesto/utils.py:697 | the two decimals shown are the magnitude's hundredths to within half a hundredth |
| PresupuestoUtils.MilesValor | presupuesto/utils.py:697 | removing the `.` group separators leaves exactly the digits of the integer part |
| PresupuestoUtils.FormatoDineroLeido | presupuesto/utils.py:691-699 | the formatted amount reads back as its signed number of hundredths: `$`, sign, `.`-grouped integer part, `,` and two decimals lose nothing |
| PresupuestoUtils.FormatoLeido | presupuesto/utils.py:697 | a sign and a number of hundredths, once formatted, read back as themselves |
| PresupuestoUtils.CuerpoLeido | presupuesto/utils.py:697 | the unsigned body reads back as its hundredths |
| PresupuestoUtils.LeidoDePartes | presupuesto/utils.py:697 | a grouped part worth `c / 100`, a `,` and two digits worth `c % 100` read back as `c` |
| PresupuestoUtils.Centesimas | presupuesto/utils.py:697 | the hundredths padded to two places are two digits worth `c % 100` |
| PresupuestoUtils.PrimeroEn | presupuesto/utils.py:645 | the edited day found is the first with that date; none found means no day has it |
| PresupuestoUtils.Receptor | presupuesto/utils.py:676-681 | the day that absorbs the residual is a day, and not the edited one unless it is the only one |
| PresupuestoUtils.ValorDia | presupuesto/utils.py:686 | a day's value is whole hundredths within half a hundredth of the monthly budget times its percentage over 100 |
| PresupuestoUtils.ReasignarOtros | presupuesto/utils.py:658-668 | the loop over the other days gives each its specified share and leaves days of the edited date alone |
| PresupuestoUtils.AjustarResiduo | presupuesto/utils.py:673-681 | the residual step yields the specified final percentages |
| PresupuestoUtils.RecalcularValores | presupuesto/utils.py:684-687 | the value loop yields each day with its final percentage and recomputed value |
| PresupuestoUtils.AjustarPresupuestoDiario | presupuesto/utils.py:632-689 | the whole adjustment returns the specified answer and days |
| PresupuestoUtils.AjusteExito | presupuesto/utils.py:641-656 | success exactly when some day has the edited date and the rounded new percentage is at most 100; a failure changes no day; an empty month gives its own message |
| PresupuestoUtils.AjusteValores | presupuesto/utils.py:684-687 | a successful adjustment keeps every date and recomputes every value from its new percentage |
| PresupuestoUtils.SumaCentesimales | presupuesto/utils.py:672 | a sum of whole hundredths is whole hundredths |
| PresupuestoUtils.CentesimalPequeno | presupuesto/utils.py:676 | a residual in hundredths smaller than 0.01 is 0, so skipping it loses nothing |
| PresupuestoUtils.RepartidosCentesimales | presupuesto/utils.py:653-668 | the rescaled percentages are whole hundredths when the stored ones are |
| PresupuestoUtils.FinalesSumanCien | presupuesto/utils.py:671-681 | after the residual step whole-hundredth percentages add up to exactly 100 |
| PresupuestoUtils.PorcentajesConValores | presupuesto/utils.py:684-687 | recomputing the values keeps the final percentages |
| PresupuestoUtils.AjusteSumaCien | presupuesto/utils.py:632-689 | with whole-hundredth percentages stored, a successful adjustment leaves them adding up to exactly 100.00, as the docstring promises |
| PresupuestoUtils.AjusteDiaEditado | presupuesto/utils.py:653-671 | with more than one day, the edited day ends at exactly the rounded new percentage |
| PresupuestoUtils.AjusteDiaUnico | presupuesto/utils.py:676-681 | a one-day month always ends at 100.00 whatever percentage was asked for |
| PresupuestoUtils.AjusteReparto | presupuesto/utils.py:658-668 | every other-date day that does not absorb the residual ends at its share of what remains |
| PresupuestoUtils.RepartoCerca | presupuesto/utils.py:660-668 | a share is whole hundredths: the even share when the others added to 0, else within half a hundredth of the proportional part |
| PresupuestoUtils.AjusteMismaFecha | presupuesto/utils.py:645-646 | other days with the edited date are not rescaled: they keep their percentage unless they absorb the residual |
| ProcesosAdmin.Capitalizar | Compras/admin/procesos.py:91 | `str.capitalize()`: the first character upper-cased, the rest lower-cased, the length kept |
| ProcesosAdmin.WizardPorEstado | Compras/admin/procesos.py:74-99 | only a finished process gets plain text; every other state gets a link, and a state outside the choices links nowhere under its capitalised name |
| ProcesosAdmin.WizardComoVista | Compras/admin/procesos.py:80-142 | for a processed or confirmed process, the wizard's link is the page `procesar_view` redirects to |
| ProcesosAdmin.ProcesarVistaTransicion | Compras/admin/procesos.py:113-145 | only extraction moves, to `procesado`, landing on the processed list; every other state is left as it is; a supplier is turned away when the guard is present |
| ProcesosAdmin.ProcesarVistaComoWizard | Compras/admin/procesos.py:77-142 | the page reached after the view is the one the wizard shows for the new state |
| ProcesosAdmin.PermisoModuloProcesos | Compras/admin/procesos.py:27-36 | suppliers see no module and no view; others get the default permission |
| ProcesosAdmin.ProcesosVisibles | Compras/admin/procesos.py:47-51 | suppliers get no rows; others get all of them |
| ProcesosAdmin.PermisoCambiarProceso | Compras/admin/procesos.py:41-44 | change is refused exactly for a confirmed process |
| ProcesosAdmin.PermisoCambiarProcesados | Compras/admin/clasificaciones.py:196-206 | processed rows are editable only while their process is `procesado`, never for an unknown process, never beyond the default permission |
| ProcesosAdmin.RedireccionesSinCiclo | Compras/admin/clasificaciones.py:44-172 | the final and processed lists never send a process back and forth: the list it is sent to keeps it |
| ProcesosAdmin.ValidacionSegunNuevo | Compras/admin/clasificaciones.py:255-261 | a new article not in class R or T is validated; any other is validated exactly when its class is unchanged |
| ProcesosAdmin.FinalDe | Compras/admin/clasificaciones.py:262-275 | a final row copies the processed row's code, warehouse, section and classes, is pending with no message, and carries the validation result |
| ProcesosAdmin.FinalesEn | Compras/admin/clasificaciones.py:256-276 | the i-th final row is built from the i-th processed row |
| ProcesosAdmin.GenerarClasificacionFinal | Compras/admin/clasificaciones.py:235-291 | the loop that builds the final rows gives the specified outcome |
| ProcesosAdmin.GeneracionCompleta | Compras/admin/clasificaciones.py:243-288 | generation happens only from `procesado`, confirms the process, and each processed row gives exactly one pending final row |
| ProcesosAdmin.GeneracionSinDuplicados | Compras/admin/clasificaciones.py:248-287 | when final rows exist none is created, yet the process is still confirmed |
| ProcesosAdmin.ValidacionSinNuevos | Compras/admin/clasificaciones.py:258-261 | without new codes the rule is plain class equality, as in the older copy |
| ProcesosAdmin.EncolarActualizacion | Compras/admin/clasificaciones.py:87-107 | only a confirmed process is looked up; it is queued by its key exactly when the Celery task exists, and the attempt fails otherwise |
| ProcesosAdmin.NadaSeEncola | Compras/admin/clasificaciones.py:99-103 | with the ICG update declared as a plain function, the button never queues anything and a confirmed process always reports the error |
| ProcesosAdmin.ColumnasAlineadas | Compras/admin/clasificaciones.py:302-328 | eleven headers, eleven cells, and each cell sits under the header that names it |
| ProcesosAdmin.ExportarExcel | Compras/admin/clasificaciones.py:293-328 | the export fails with `IllegalCharacterError` exactly when some article's row holds a refused control character; otherwise the sheet is the header followed by one stored row per article of the list, in order |
| ProcesosAdmin.FilasHojaEn | Compras/admin/clasificaciones.py:315-328 | the i-th data row is the i-th article's row |
| SenalesEnvios.Horario | automatizaciones/signals.py:29 | the schedule is the crontab when there is one, else the interval, and there is one exactly when either is set |
| SenalesEnvios.Habilitada | automatizaciones/signals.py:31 | the periodic task is enabled exactly for an active mailing with a schedule |
| SenalesEnvios.Descripcion | automatizaciones/signals.py:52-80 | the description is the prefix text, at most 50 characters of the subject and `...` |
| SenalesEnvios.DiferenciasExactas | automatizaciones/signals.py:63-83 | a field is listed exactly when it differs |
| SenalesEnvios.DiferenciasVacia | automatizaciones/signals.py:63-83 | no field is listed exactly when the periodic task is already as wanted |
| SenalesEnvios.EstadoNuevo | automatizaciones/signals.py:101-105 | `ERROR_CONFIG` is kept; otherwise the state is `ACTIVO` exactly when the periodic task is enabled and `INACTIVO` exactly when not |
| SenalesEnvios.AlGuardarContrato | automatizaciones/signals.py:20-119 | without a name, or when the lookup fails, nothing changes; otherwise the named task is exactly as the mailing wants it, no other task changes, an existing task is saved exactly when it differed, and the mailing points at the periodic task with a state matching whether it is enabled |
| SenalesEnvios.AlGuardarIdempotente | automatizaciones/signals.py:60-90 | saving the same mailing again finds the periodic task as wanted and writes nothing |
| SenalesEnvios.CrearOActualizarTareaPeriodica | automatizaciones/signals.py:20-119 | the receiver's steps give the specified effect |
| SenalesEnvios.Anotar | automatizaciones/signals.py:64-66 | one comparison lists the field exactly when it differs |
| SenalesEnvios.CompararCampos | automatizaciones/signals.py:63-83 | the comparisons leave the periodic task as wanted and list exactly the differing fields, in order |
| SenalesEnvios.AlEliminar | automatizaciones/signals.py:122-146 | without a name nothing changes; otherwise exactly the periodic task of that name is gone, if it was there, and every other task is kept |
| TareasIcg.TratarArticuloSentido | Compras/tasks.py:165-198 | an iteration changes only the row's action state and message; it counts exactly when it adds no error; an error starts with the code and leaves the row in `ERROR`; an unknown warehouse writes nothing; a write is made exactly when the row becomes `ACTUALIZADO`, only for a row that failed validation, to its warehouse's column with its new class; `VALIDADO` exactly for a validated row of a known warehouse |
| TareasIcg.Recorrer | Compras/tasks.py:165-198 | every row either counts or adds one error, and no more writes are made than rows counted |
| TareasIcg.RecorrerPaso | Compras/tasks.py:165-198 | the loop over one more row is one more iteration on the state so far |
| TareasIcg.ActualizarEnIcg | Compras/tasks.py:153-200 | no connection raises the connection error; otherwise one saved row per input row and a count no larger than the rows |
| TareasIcg.TratarUno | Compras/tasks.py:166-198 | the loop body with its branches and its exception handler gives the specified iteration |
| TareasIcg.ActualizarClasificacionesEnIcg | Compras/tasks.py:153-200 | the write-back loop gives the specified result |
| TareasIcg.RecorrerEn | Compras/tasks.py:165-198 | row i of the result is row i of the input after its own iteration |
| TareasIcg.CuentaEstadoUltimo | Compras/tasks.py:165-198 | counting rows in a state over one more row adds one exactly when it is in that state |
| TareasIcg.ErroresSonFallos | Compras/tasks.py:172-198 | one entry of `errores` per row left in `ERROR`; every other row counts |
| TareasIcg.EscriturasSonActualizados | Compras/tasks.py:181-192 | the writes are exactly the `ACTUALIZADO` rows, and `count` equals their number |
| TareasIcg.EscrituraDe | Compras/tasks.py:175-182 | a write is made exactly for a row whose own iteration writes it |
| UtilsPedido.ElegirCantidad | Compras/comodin/utils_pedido.py:55-76 | the quantity is never negative, and 0 when the internal suggestion is missing or not positive |
| UtilsPedido.CantidadComoInterno | Compras/comodin/utils_pedido.py:55-76 | with a pack of 1 the suggestion is kept; otherwise the quantity is the multiple of the pack just below or just above it, within one pack; and it equals what the service's `prefer_interno` policy orders whenever the suggestion is positive |
| UtilsPedido.ImpuestosIcg | Compras/comodin/utils_pedido.py:92-121 | a found article gives its tax type (a missing or zero type counting as 4) and rate (missing counting as 0); a missing article gives (4, 0); a failed query gives type 4 exactly for a zero rate and 1 otherwise |
| UtilsPedido.ImpuestosRespaldo | Compras/comodin/utils_pedido.py:114-121 | on a failed query the result is the service's fallback from the line's own rate |
| UtilsPedido.Visibles | Compras/comodin/utils_pedido.py:168-170 | the visibility map has exactly the codes of the rows read |
| UtilsPedido.CargosEsperados | Compras/comodin/utils_pedido.py:124-190 | always six charges |
| UtilsPedido.CargosDeArticulo | Compras/comodin/utils_pedido.py:138-190 | a charge is 0 or the article's own value, and it is non-zero only when a row marks its code visible for purchases |
| UtilsPedido.CargoDeUltimaFila | Compras/comodin/utils_pedido.py:168-186 | with both queries answered, a charge is the article's value exactly when the last row with its code is visible and the value is present and non-zero, 0 otherwise |
| UtilsPedido.VisibleDeUltima | Compras/comodin/utils_pedido.py:168-170 | a code's visibility is that of the last row carrying it |
| UtilsPedido.VisibleDeFila | Compras/comodin/utils_pedido.py:168-170 | a code marked visible owes it to a row with that code and `T` |
| UtilsPedido.LeerVisibles | Compras/comodin/utils_pedido.py:168-170 | the loop yields the specified visibility map |
| UtilsPedido.ObtenerCargosArticulo | Compras/comodin/utils_pedido.py:124-190 | the charge look-up yields the specified six charges |
| UtilsPedido.CampoClasificacion | Compras/comodin/utils_pedido.py:193-200 | a column is found exactly for one of the four warehouse names, after upper-casing and stripping, and it is one of the four classification columns |
| UtilsPedido.CampoSinMayusculas | Compras/comodin/utils_pedido.py:194 | the look-up ignores case |
| UtilsPedido.ActualizarSiActivo | Compras/comodin/utils_pedido.py:203-218 | a write happens exactly for an inactive line of a known warehouse, and it sets all four columns to `I` for that article |
| UtilsPedido.ActualizarClasificacionAlmacen | Compras/comodin/utils_pedido.py:221-237 | a write happens exactly when both classes are present and differ and the warehouse is known; it sets that warehouse's column alone to `I` |
| UtilsPedido.UnaSolaColumna | Compras/comodin/utils_pedido.py:221-237 | the write touches exactly one classification column and does not depend on which new class was chosen |
| UtilsPedido.ValorDescuento | Compras/comodin/utils_pedido.py:259-261 | a discount value is non-negative and in hundredths |
| UtilsPedido.ObtenerDescuentosProveedor | Compras/comodin/utils_pedido.py:240-275 | a failed query gives no discounts; otherwise the loop yields the specified kept rows |
| UtilsPedido.DescuentosPositivos | Compras/comodin/utils_pedido.py:256-271 | every discount kept is positive, in hundredths and from a row with that code; a row is kept exactly when its rounded absolute value is positive |
| UtilsPedido.SecuenciaCargo | Compras/comodin/utils_pedido.py:278-295 | the sequence found, else 0, also on a NULL or a failure |
| UtilsPedido.FormaPagoProveedor | Compras/comodin/utils_pedido.py:303-337 | no row or a failure gives ('14', 30, '10'); a row gives its days when non-zero, and each missing or zero column takes its default |
| UtilsPedido.FormaPagoCodigo | Compras/comodin/utils_pedido.py:322 | a non-zero payment code is written as text that reads back as the code |
| VistasLote.PermisosPorRol | Compras/admin/sugeridos.py:232-236 | in the package admin a supplier never sees the module nor adds lines and an internal user gets the default permission; the older admin never shows the module |
| VistasLote.CopiarPropuesta | Compras/admin/sugeridos.py:340-341 | copying the proposal keeps one line per line |
| VistasLote.CuentaDelProveedorCero | Compras/admin/sugeridos.py:335-341 | the count of the supplier's lines is at most the lot's and is zero exactly when the lot has none |
| VistasLote.ConfirmarCuando | Compras/admin/sugeridos.py:326-346 | a confirmation happens exactly for a supplier, on a lot neither confirmed nor completed, holding lines of that supplier |
| VistasLote.ConfirmarRechazoSinCambios | Compras/admin.py:818-831 | every refusal leaves the lot and its lines unchanged |
| VistasLote.ConfirmarEfecto | Compras/admin/sugeridos.py:339-343 | a confirmation leaves the lot CONFIRMADO; the package copy sets the internal quantity of exactly the supplier's lines to their proposal, a missing one as 0, and the older copy changes no line |
| VistasLote.ConfirmarDosVeces | Compras/admin/sugeridos.py:332-334 | confirming again is refused, leaving the lot as the first confirmation did |
| VistasLote.ConfirmarCuenta | Compras/admin/sugeridos.py:341-345 | the package copy reports the number of lines it updated, between 1 and the lot's size |
| VistasLote.ConfirmarPedidoIcgEfecto | Compras/admin/sugeridos.py:348-360 | an allowed user leaves the lot COMPLETADO and a second call changes nothing; a refused one changes nothing; lines are never touched |
| VistasLote.CompletarVersiones | Compras/admin.py:837-849 | the two copies disagree exactly on internal-group users who hold a supplier profile and on users who are neither |
| VistasLote.Resumenes | Compras/admin/sugeridos.py:379 | one summary per order created |
| VistasLote.MensajeImportacionNivel | Compras/admin/sugeridos.py:377-384 | the message is an error exactly when the service fails and a success exactly when orders were created |
| VistasLote.ImportarAIcg | Compras/admin/sugeridos.py:362-385 | a missing lot is not found; a non-internal user is refused; otherwise the service runs with the lot's own series and sub-series when set, fails exactly when its validation fails, and its outcome is reported |
| VistasLote.PrimerLoteEs | Compras/admin/sugeridos.py:410 | the lot notified is that of a selected line of the supplier |
| VistasLote.EnviarRespuestaEfecto | Compras/admin/sugeridos.py:397-415 | the answer goes through exactly for a supplier with selected lines of its own; exactly those lines become RESPONDIDA, whether or not the notification raised, and the message is a success exactly when it did not |
| VistasLote.RangoAlmacenPosicion | Compras/admin/sugeridos.py:675-684 | a warehouse's rank is its position in the fixed list, and 99 for any other |
| VistasLote.AlmacenesOrdenados | Compras/admin/sugeridos.py:666-684 | the columns are a permutation of the warehouses, ranked, with the unknown ones kept in the order the set yielded them |
| VistasLote.VistaLoteReglas | Compras/admin/sugeridos.py:698-713 | for a lot that exists, inputs are read-only exactly on a completed lot, or for sellers on a confirmed or completed one; the confirm button is hidden exactly on those states, always when inputs are read-only |
| VistasLote.VistaSinLote | Compras/admin/sugeridos.py:688-713 | without a lot, or with an unknown one, nothing is read-only |
| VistasLote.VistaSinPedido | Compras/admin/sugeridos.py:688-713 | with no lot asked for and not exactly one lot listed, the view shows no lot and nothing is read-only |
| VistasLote.VistaMinusculas | Compras/admin/sugeridos.py:704 | the state is compared case-insensitively: a lower-case `completado` also locks the inputs |
| VistasLote.DescripcionCortaForma | Compras/admin/sugeridos.py:719-721 | a description of up to 50 characters is shown whole; a longer one is its first 47 characters and an ellipsis |
| CargaArticulos.Texto | automatizaciones/service/upload.py:22-26 | a missing text cell reads as `""`, a present one as its stripped text |
| CargaArticulos.Leer | automatizaciones/service/upload.py:22-31 | a row's code and classification are stripped texts; missing stock is 0 and a present one is truncated; missing price is 0.0; missing discount price is the price |
| CargaArticulos.AplicaFormas | automatizaciones/service/upload.py:52-60 | a discount applies exactly when its filled columns form one of the five accepted shapes and each equals the article's value; no columns, or a family with no section, never apply |
| CargaArticulos.DelDia | automatizaciones/service/upload.py:17-18 | the day's discounts are table rows whose `dia` is today |
| CargaArticulos.DelDiaMiembro | automatizaciones/service/upload.py:18 | a discount is among the day's exactly when it is in the table with today's `dia` |
| CargaArticulos.IndiceDescuento | automatizaciones/service/upload.py:50-62 | the discount taken is the first that applies; no earlier one applies |
| CargaArticulos.BuscarDescuento | automatizaciones/service/upload.py:51-62 | the loop with `break` returns the position of the first applying discount |
| CargaArticulos.Resultante | automatizaciones/service/upload.py:33-67 | the stored article carries the row's code, stock and price; it is flagged iff new, changed in stock/price/discount price, or discounted; a discount sets the discount price to price·(1 − pct/100) |
| CargaArticulos.ResultanteEstable | automatizaciones/service/upload.py:37-47 | uploading the same row again changes no value, and the flag is then set only by a discount |
| CargaArticulos.Posicion | automatizaciones/service/upload.py:34 | `filter(code=...).first()` finds the first stored article with the code, or none |
| CargaArticulos.PasoContrato | automatizaciones/service/upload.py:70-91 | on a table with unique codes `update_or_create` never fails, keeps codes unique, stores the resulting article under the code and leaves the others unchanged |
| CargaArticulos.PasoConserva | automatizaciones/service/upload.py:70-91 | a row never removes an article stored under another code |
| CargaArticulos.CargarContrato | automatizaciones/service/upload.py:20-91 | the whole upload succeeds on unique codes, keeps them unique, and every row's code and every previous code ends up stored |
| CargaArticulos.Lecturas | automatizaciones/service/upload.py:20-31 | each row is read by the same normalisation |
| CargaArticulos.ProcesarFila | automatizaciones/service/upload.py:22-91 | one iteration of the loop computes exactly one upsert step |
| CargaArticulos.UpdateOrCreateArticles | automatizaciones/service/upload.py:10-96 | the loop leaves the table the atomic upload defines, or raises and leaves it unchanged |
| CargaArticulos.ArticulosModificados | automatizaciones/service/upload.py:99-100 | only flagged articles with a positive price are returned, in table order |
| CargaArticulos.ArticulosModificadosMiembro | automatizaciones/service/upload.py:99-100 | an article is returned iff it is in the table, flagged, and has a positive price |
| CargaArticulos.MarcarNoModificados | automatizaciones/service/upload.py:102-103 | every flag is cleared and nothing else changes |
| CargaArticulos.NadaTrasMarcar | automatizaciones/service/upload.py:99-103 | after clearing the flags nothing is left to send |
| CargaArticulos.RegistroDe | automatizaciones/service/upload.py:125-137 | the record keeps the store, prices and stock; a missing EAN is sent as the text `None` |
| CargaArticulos.Tiendas | automatizaciones/service/upload.py:123-125 | the `defaultdict` keys cover every article's store, each store once |
| CargaArticulos.TiendasTienenArticulos | automatizaciones/service/upload.py:123-137 | every store listed has at least one record |
| CargaArticulos.RegistrosDe | automatizaciones/service/upload.py:124-137 | a store's group holds only records of that store |
| CargaArticulos.GruposCompletos | automatizaciones/service/upload.py:123-139 | the groups together hold every modified article exactly once |
| CargaArticulos.RegistrosOrigen | automatizaciones/service/upload.py:123-139 | a store with records is one of the groups |
| CargaArticulos.LogDe | automatizaciones/service/upload.py:160-171 | each attempt is logged with its store: the answer's status and text, or 500 and the exception text |
| CargaArticulos.Limpiar | automatizaciones/service/upload.py:162 | exactly the articles of the store get their flag cleared |
| CargaArticulos.EnviarTiendasContrato | automatizaciones/service/upload.py:139-171 | every store is tried once and logged in order; a flag is cleared exactly when its store's POST answered 200 or 201 |
| CargaArticulos.EnviarTiendasLogs | automatizaciones/service/upload.py:139-171 | one log row per listed store, in order, holding that store's answer or the exception as status 500 |
| CargaArticulos.EnviarTiendasTabla | automatizaciones/service/upload.py:139-171 | an article's flag is cleared exactly when its store is listed and its POST answered 200 or 201; nothing else changes |
| CargaArticulos.SendContrato | automatizaciones/service/upload.py:107-171 | with nothing to send the table is untouched and one 200 log for `all` is written; otherwise one log per store and only accepted stores get their flags cleared |
| CargaArticulos.Agrupar | automatizaciones/service/upload.py:123-137 | the grouping loop yields the stores in first-appearance order with each store's records |
| CargaArticulos.AgruparArticulo | automatizaciones/service/upload.py:124-137 | one article keeps the grouping exact: its store is listed when first seen and its record appended to that store's group only |
| CargaArticulos.EnviarTienda | automatizaciones/service/upload.py:152-171 | one store's answer clears its flags on 200/201 and writes its log row |
| CargaArticulos.SendModified | automatizaciones/service/upload.py:107-171 | the method computes exactly the outcome `SendModifiedArticles` defines |
| CargaArticulos.EnviarTiendasAvanza | automatizaciones/service/upload.py:139-171 | handling one more store keeps the loop's outcome: the tables and logs so far, completed by the remaining stores, are the whole send |
| RappiSync.Efectiva | automatizaciones/service/rappi_sync.py:57-60 | a 5xx answer is replaced by the single retry; any other answer is kept |
| RappiSync.Aceptar | automatizaciones/service/rappi_sync.py:61 | `raise_for_status` accepts exactly the answers below 400 and keeps their body |
| RappiSync.NormalizaEan | automatizaciones/service/rappi_sync.py:90-91 | a missing EAN is `""`, a present one its stripped text, and the result is already stripped |
| RappiSync.LotesContrato | automatizaciones/service/rappi_sync.py:123-124 | the batches together are the list; each holds 1 to n items and all but the last exactly n |
| RappiSync.LotesConcatenan | automatizaciones/service/rappi_sync.py:123-124 | concatenating the batches gives back the list, in order |
| RappiSync.LotesTamanos | automatizaciones/service/rappi_sync.py:123-124 | each batch holds 1 to n items and all but the last exactly n |
| RappiSync.PaginaEn | automatizaciones/service/rappi_sync.py:57-63 | a page fails exactly when the request is refused or its accepted body is not JSON (`JSONDecodeError`); otherwise it gives one normalised SKU per item of the body |
| RappiSync.ItemsDe | automatizaciones/service/rappi_sync.py:65-72 | a list page is its own items; a page that is neither list nor object has none |
| RappiSync.SkusPagina | automatizaciones/service/rappi_sync.py:77-78 | each item contributes its normalised `sku` |
| RappiSync.NoVacios | automatizaciones/service/rappi_sync.py:79-80 | only non-empty SKUs of the page are kept |
| RappiSync.PaginasOffsets | automatizaciones/service/rappi_sync.py:54-56 | at most `pages` pages are requested, at offsets `limit` apart from 0 |
| RappiSync.ProgresionIndice | automatizaciones/service/rappi_sync.py:55 | the k-th page requested is at offset k·limit |
| RappiSync.PaginasSkus | automatizaciones/service/rappi_sync.py:74-83 | every SKU gathered is non-empty and has any property all page texts share |
| RappiSync.PaginaCorta | automatizaciones/service/rappi_sync.py:82-83 | a short page is the last one requested |
| RappiSync.ListaSkusNormalizada | automatizaciones/service/rappi_sync.py:77-86 | the final normalisation changes nothing, and no listed SKU is empty or has surrounding blanks |
| RappiSync.Agregar | automatizaciones/service/rappi_sync.py:77-80 | the page loop appends exactly the non-empty SKUs |
| RappiSync.PaginasPaso | automatizaciones/service/rappi_sync.py:74-83 | after a full page its SKUs precede those of the following pages |
| RappiSync.Paginar | automatizaciones/service/rappi_sync.py:54-83 | the paging loop yields the offsets requested and the SKUs (or the error) the paging defines |
| RappiSync.NormalizarSkus | automatizaciones/service/rappi_sync.py:86 | each SKU is stripped |
| RappiSync.ListProductsSkus | automatizaciones/service/rappi_sync.py:44-86 | `rappi_list_products_skus` computes the listing the paging and normalisation define |
| RappiSync.SepararParticion | automatizaciones/service/rappi_sync.py:100-103 | each article lands in exactly one list: the two lists are the table split by the test |
| RappiSync.DividirParticion | automatizaciones/service/rappi_sync.py:93-104 | present articles are exactly those whose normalised EAN is a normalised SKU, the others missing; together they are the table |
| RappiSync.SplitIcgVsRappi | automatizaciones/service/rappi_sync.py:99-104 | the split method returns the partition `Dividir` defines |
| RappiSync.SepararLoop | automatizaciones/service/rappi_sync.py:100-103 | the loop appends each article to the list its test chooses, in order |
| RappiSync.SkuDeFila | automatizaciones/service/rappi_sync.py:138 | a row's SKU is `item_sku` when non-empty, else `sku`, stripped |
| RappiSync.Anotar | automatizaciones/service/rappi_sync.py:137-147 | only non-empty SKUs become keys of the result |
| RappiSync.ConsultarContrato | automatizaciones/service/rappi_sync.py:123-147 | a successful query asked every batch and has no empty key; a batch whose accepted answer is not JSON stops the queries with `JSONDecodeError` |
| RappiSync.DisponibilidadContrato | automatizaciones/service/rappi_sync.py:114-124 | an empty SKU list gives `{}` with no request; otherwise the SKUs go in batches of 200, all queried when it succeeds |
| RappiSync.AnotarFilas | automatizaciones/service/rappi_sync.py:137-147 | the row loop stores each row under its SKU, later rows replacing earlier ones |
| RappiSync.CheckAvailabilityBySku | automatizaciones/service/rappi_sync.py:108-148 | the batch loop returns the map `ConsultarDisponibilidad` defines |
| RappiSync.Decidir | automatizaciones/service/rappi_sync.py:211-218 | each present article goes to exactly one of turn_on and turn_off |
| RappiSync.DecidirContrato | automatizaciones/service/rappi_sync.py:212-218 | an article is switched on iff its stock reaches the minimum, otherwise off |
| RappiSync.DecidirEncendido | automatizaciones/service/rappi_sync.py:211-218 | the decision loop builds the two lists `Decidir` defines |
| RappiSync.SalidaDe | automatizaciones/service/rappi_sync.py:171 | an empty answer is `{"status": "ok"}`, any other its JSON |
| RappiSync.EnviarLotesClaves | automatizaciones/service/rappi_sync.py:224-231 | one result per batch, keyed `turn_on_k` / `turn_off_k` with k counting from 0 |
| RappiSync.EnviarLotesPaso | automatizaciones/service/rappi_sync.py:152-171 | a batch's error stops everything, otherwise its entry precedes those of later batches |
| RappiSync.SetAvailabilityLotes | automatizaciones/service/rappi_sync.py:224-231 | each list is sent in batches of 200, the other list empty |
| RappiSync.EnviarCadaLote | automatizaciones/service/rappi_sync.py:152-171 | each batch is sent with its retry and its answer recorded under its key |
| RappiSync.AvanzarLote | automatizaciones/service/rappi_sync.py:152-171 | a refused batch ends the loop with its error; an accepted one is recorded under its key and the remaining batches complete the outcome |
| RappiSync.Base | automatizaciones/service/rappi_sync.py:198-202 | the articles considered pass the filter and, when a store is given, belong to it |
| RappiSync.SkuPresentes | automatizaciones/service/rappi_sync.py:207 | at most one SKU per present article |
| RappiSync.SkuPresentesTodos | automatizaciones/service/rappi_sync.py:207 | every present article with a non-empty EAN contributes its SKU |
| RappiSync.SkuPresentesCompletos | automatizaciones/service/rappi_sync.py:204-207 | when no Rappi SKU is blank, every present article's SKU is queried |
| RappiSync.Cruzar | automatizaciones/service/rappi_sync.py:204-241 | presentes + faltantes = icg_total, turn_on + turn_off = presentes, one result per batch |
| RappiSync.SincronizarResumen | automatizaciones/service/rappi_sync.py:192-243 | a failed login stops everything; the summary adds up over the filtered articles; every present article is queried |
| RappiSync.SincronizarIcgConRappi | automatizaciones/service/rappi_sync.py:175-243 | the orchestration returns the summary `Sincronizar` defines |
| RappiSync.CruzarIcgConRappi | automatizaciones/service/rappi_sync.py:204-241 | the steps after the listing return what `Cruzar` defines |
| RappiEstado.ResolverClave | automatizaciones/service/rappi_update_state.py:34-50 | an unknown key raises naming it; a known key whose name is unknown raises naming the name; otherwise the result is `name_to_rappi[local_to_name[key]]` |
| RappiEstado.ResolverTienda | automatizaciones/service/rappi_update_state.py:21-50 | a missing store id raises; otherwise the trimmed id is resolved through both maps |
| RappiEstado.ResolverRecorta | automatizaciones/service/rappi_update_state.py:34 | surrounding blanks in the local store id make no difference |
| RappiEstado.ItemsDe | automatizaciones/service/rappi_update_state.py:85-94 | a list answer is searched itself; other JSON has no items |
| RappiEstado.Verdadero | automatizaciones/service/rappi_update_state.py:75-80 | an id is kept exactly when it is truthy (present and non-zero) |
| RappiEstado.PrimeraQue | automatizaciones/service/rappi_update_state.py:86-94 | the item picked is the first that matches |
| RappiEstado.IdsDeSkuContrato | automatizaciones/service/rappi_update_state.py:53-96 | no SKU or a non-200 answer gives `None`; ids come from the first item whose trimmed SKU equals the trimmed SKU searched |
| RappiEstado.IdsDeSkuFalla | automatizaciones/service/rappi_update_state.py:64-73 | the lookup raises exactly when the request raises or a 200 answer's body is not JSON, the latter as `JSONDecodeError` |
| RappiEstado.BuscarIds | automatizaciones/service/rappi_update_state.py:168 | the code is looked up only when the EAN lookup gives `None`; an exception propagates |
| RappiEstado.BuscarPrimera | automatizaciones/service/rappi_update_state.py:86-94 | the item loop stops at the first match |
| RappiEstado.GetIdsFromSku | automatizaciones/service/rappi_update_state.py:53-96 | the method returns what `IdsDeSku` defines, including its `JSONDecodeError` |
| RappiEstado.ToIntMoney | automatizaciones/service/rappi_update_state.py:99-109 | a number becomes an integer within 0.5 of it; `None` or an unconvertible value gives 0 |
| RappiEstado.ToIntMoneyEntero | automatizaciones/service/rappi_update_state.py:99-109 | a whole amount is sent unchanged |
| RappiEstado.PayloadDe | automatizaciones/service/rappi_update_state.py:183-187 | sale_price is the discount when positive, else the price; stock is sent as is |
| RappiEstado.PutContrato | automatizaciones/service/rappi_update_state.py:190-203 | productId is tried first when present, listingId second exactly after a 404, listingId alone when there is no productId; attempts in order, the last answer being the last attempt's |
| RappiEstado.PutInventario | automatizaciones/service/rappi_update_state.py:188-203 | the PUT code appending to `tried` yields what `PutConReintento` defines |
| RappiEstado.Cerrar | automatizaciones/service/rappi_update_state.py:205-233 | a missing or non-200/201/202 final answer raises with the attempts; a success reports the last attempt as used |
| RappiEstado.Tras | automatizaciones/service/rappi_update_state.py:139-221 | a raise leaves the article unchanged; a skip marks it unavailable; a send marks it available iff it has stock; both clear `modificado` |
| RappiEstado.SinStockNoEnvia | automatizaciones/service/rappi_update_state.py:137-155 | with stock ≤ 0 nothing is requested, a skipped result is returned and the article ends unavailable and not modified |
| RappiEstado.TiendaAntesDeLlamar | automatizaciones/service/rappi_update_state.py:157-162 | store resolution fails before any request |
| RappiEstado.EnviadoContrato | automatizaciones/service/rappi_update_state.py:120-233 | a success had stock, used the resolved store and the looked-up ids, sent the computed payload, and its last attempt was accepted |
| RappiEstado.IdsVaciosNoSeReintentan | automatizaciones/service/rappi_update_state.py:168-177 | an EAN match without any id raises; the code is not tried |
| RappiEstado.ArticuloRappi.UpdateInventoryOneByOne | automatizaciones/service/rappi_update_state.py:120-233 | the outcome is `Actualizar` of the article, whose flags end as `Tras` says |
| RappiEstado.CalcularEnvio | automatizaciones/service/rappi_update_state.py:134-233 | the guards in source order give what `Actualizar` defines |
| RappiEstado.EnviarConTienda | automatizaciones/service/rappi_update_state.py:165-233 | the steps after the store give what `ConTienda` defines |
| RappiAuth.Expiracion | automatizaciones/service/rappi_auth.py:66-69 | a new token is served for its announced lifetime (3000 s when absent) less 30 s, and never less than a minute |
| RappiAuth.ObtenerTokenCasos | automatizaciones/service/rappi_auth.py:30-71 | missing credentials fail first with no request; a request is made exactly when the cache is not live; a live cache answers its token; a failure leaves the cache alone; only a good login changes it; an HTTP error or a missing token fails |
| RappiAuth.ForzarSiemprePide | automatizaciones/service/rappi_auth.py:46 | `force_refresh` always logs in again, however fresh the cache |
| RappiAuth.TokenReutilizado | automatizaciones/service/rappi_auth.py:46-69 | a token just obtained is served from the cache, with no request, to every later call in the following minute |
| RappiAuth.CacheToken.constructor | automatizaciones/service/rappi_auth.py:20 | the cache starts empty with expiry 0 |
| RappiAuth.CacheToken.GetRappiToken | automatizaciones/service/rappi_auth.py:30-71 | the call answers and leaves the cache as the specified step does from the cache before it |
| RappiMissing.CeroSiFalso | automatizaciones/service/rappi_missing.py:15-17 | `x or 0`: a non-zero number is kept, a missing one is 0 |
| RappiMissing.ClaveDe | automatizaciones/service/rappi_missing.py:24-27 | the row key is the EAN (missing counts as empty) and the local store |
| RappiMissing.Recortar | automatizaciones/service/rappi_missing.py:18 | the stored error is a prefix of the error of at most 2000 characters, the whole error when it fits |
| RappiMissing.Defaults | automatizaciones/service/rappi_missing.py:10-22 | the defaults are flagged for creation and unresolved, with the error cut short and zero for missing stock or price |
| RappiMissing.RegistrarContrato | automatizaciones/service/rappi_missing.py:23-34 | only the article's key is added or changed; a new row takes the defaults, an existing one gets every default overwritten and one more attempt, a null counter counting as zero |
| RappiMissing.DosFallos | automatizaciones/service/rappi_missing.py:23-34 | two failures of the same article leave one row, whose counter went up by one on the second and whose error is the latest |
| RappiMissing.TablaFaltantes.constructor | automatizaciones/service/rappi_missing.py:24 | the table holds the given rows |
| RappiMissing.TablaFaltantes.LogMissingProduct | automatizaciones/service/rappi_missing.py:5-34 | the table after the call is the specified get-or-create of the table before it |

## Left out

- I/O is outside the model: database connections and cursors, HTTP
  sessions, `print` and logging, file storage and the mail backend. Their
  answers are parameters, and what would be written is returned as a value.
- Concurrency is left out: Celery, transactions beyond all-or-nothing
  results, and the process-wide token cache under threads.
- Floating point is modelled on exact values:
  - `math.ceil` of a float in `Compras/services/calculo_sugerido.py`;
  - the banker's rounding of `_to_int_money`;
  - the float formatting in `formato_dinero_colombiano`, whose cents are
    taken as exact half-even rounding.
- CastReal: SQLite's `CAST(text AS REAL)` is read exactly rather than as a
  double. Digits beyond a double's precision are kept, and an exponent beyond
  the double range gives its exact value where SQLite gives infinity or 0.
- KpiProveedores.CumplimientoPresupuesto: the division is exact rather than
  `Decimal`'s 28 significant digits, so the quantized result is stated to
  within 0.005 of the exact percentage.
- The `Decimal` context: importing `Compras/utils.py` (line 19) sets the
  precision of the importing thread's context to 6 significant digits, for
  every later `Decimal` operation of that thread; other threads keep the
  default 28 digits. The model follows the default context throughout. In a
  thread that imported `Compras/utils.py`, the members of the lines below
  raise `InvalidOperation` or compute other values than the model states.
- Round2 (`PedidosIcg.Round2`, with the copy at
  `Compras/comodin/utils_pedido.py:14`): in a 6-digit thread,
  `quantize(Decimal("0.01"))` raises `InvalidOperation` for every value
  that rounds to 10000.00 or more in magnitude. The model always returns
  the rounded value.
- PrecioYDescuento (`PedidosIcg.PrecioYDescuento`): in a 6-digit thread the
  three divisions by 100 and the compound product are rounded to 6 digits,
  and `quantize(Decimal("0.00000000000001"))` raises `InvalidOperation` for
  any compound discount of 0.00000001 or more, which needs more than 6
  digits at 14 decimals. The price raises as in Round2. The model gives the exact
  compound discount.
- ValorDescuento (`UtilsPedido.ValorDescuento`, and with it
  `DescuentosPositivos` and `ObtenerDescuentosProveedor`): in a 6-digit
  thread, `quantize(Decimal("0.01"))` at `Compras/comodin/utils_pedido.py:259`
  raises `InvalidOperation` for values of 10000 or more.
- PresupuestoCalculo (`Tarifa`, `CalcularTarifa`, `TarifasCategoria`,
  `TablaTarifas`, `CalcularTarifas`, `AjustarDia`, `DiaAjustado`,
  `DiasAjustados`, `RedondearTotales`, `CalcularDias`,
  `CalcularPresupuesto`, `PresupuestoCuadra` and the lemmas about them): in
  a 6-digit thread, the `quantize(Decimal('0.01'))` calls of
  `presupuesto/utils.py:109`, `:174`, `:188`, `:195` and `:201` raise
  `InvalidOperation` for amounts of 10000 or more, which monthly peso
  budgets reach. The divisions, products and sums before them are rounded
  to 6 digits.
- PresupuestoUtils (`ValorDia`, `RecalcularValores`, `ReasignarOtros`,
  `AjusteReparto`, `AjustarPresupuestoDiario` and the lemmas about them):
  in a 6-digit thread, `presupuesto_mensual * pct / 100` at
  `presupuesto/utils.py:686` raises `InvalidOperation` when quantized for
  daily values of 10000 or more. The quotients and products at `:663` and
  `:668` are rounded to 6 digits before they are quantized.
- ClasificacionProceso (`Total`, `Pct`, `Acumulado`, `ProcesarGrupo`,
  `Procesar`, `ProcesarClasificacion` and the lemmas about them): in a
  6-digit thread, several operations are rounded to 6 significant digits:
  the negation in the sort key `-Decimal(importe)`, the group sum, `importe
  / total * 100` and `acumulado += pct`. So amounts that agree in their
  first 6 digits tie in the sort, and the query's order decides between
  them. Shares and cumulative shares also differ from the exact ones the
  model computes, which can move an article across a class boundary.
- CumplimientoPresupuesto (`KpiProveedores.CumplimientoPresupuesto`): in a
  6-digit thread the quotient and its product by 100 are rounded to 6
  digits before `quantize`, and a percentage of 10000 or more makes
  `quantize(Decimal("0.01"))` raise `InvalidOperation`. The stated bound
  holds for the default context only.
- CargaArticulos: the 2-decimal rounding the database applies to stored
  prices is not modelled.
- Only the JSON shapes the code reads are modelled. Rappi errors are kept
  as structured values rather than formatted messages.
- Template and HTML rendering are parameters, including
  `_html_email_sugerido` and the admin change-list templates.
- The iteration order of Python sets is left open: the loops pick any
  remaining element.
- Parts of `service/clientICG.py` are not modelled:
  - the query of `getClienteICG`;
  - `ConsultarClienteICG` (lines 234-255);
  - `crearClienteICG` (lines 258-348), apart from the type mapping and the
    full name;
  - `actualizar_campos_libres_cliente` (lines 162-231), apart from the
    internal-customer flag;
  - the execution of `actualizarClienteICG` (lines 423-435).
- `notificar_proveedor_lote_enviado` and
  `notificar_compras_respuesta_proveedor` (`Compras/services/notifications.py:17-49`)
  only build a message and call `send_mail`, which that file does not import.
- Values derived from the clock are left out:
  - the order number built from `timezone.now` (`Compras/admin.py:647`);
  - `_now_naive` and the date helpers (`Compras/services/icg_pedidos.py:44-59`,
    `Compras/comodin/utils_pedido.py:24-38, 298-300`).
- The internals of `_resolve_usuario` and `_ensure_catalogo_by_nombre` are
  database look-ups; their results are parameters.
- Parts of `presupuesto/utils.py` are not modelled:
  - the sales loaders (lines 288-538);
  - the Prophet forecast (lines 540-628);
  - `recalcular_presupuestos_diarios_para_periodo` (lines 221-287), which
    re-runs the modelled daily split over stored rows;
  - `venta_real_formatted`.
- Parts of `Compras/tasks.py` are not modelled:
  - `cargar_proceso_clasificacion_task` (lines 10-150), which reads ICG
    through one large SQL text; its selection rules are modelled in
    `Clasificacion`;
  - `notificar_proceso_con_excel` (line 199), which only mails a file.
- `rappi_auth_headers` (`automatizaciones/service/rappi_auth.py:74-79`) only
  wraps the token in a header dictionary.
- The pivot dictionaries (`articulos_pivot`) and the KPI aggregates that
  `changelist_view` adds to the template context are presentation only.
- Cabecera (`Exports.Cabecera`, and `ProcesosAdmin.CabeceraHoja`): the
  header rows go into the sheet without `Anexar`'s check. They are constant
  short texts with no control character, which the check would accept
  unchanged.
- SalidaDe (`RappiSync.SalidaDe`): a non-empty answer to the availability
  `PUT` that is not JSON makes `r.json()` raise `JSONDecodeError`
  (`automatizaciones/service/rappi_sync.py:171`). The model records its text
  as the batch's result.
- For `exportar_excel`, only the sheet's content is modelled, not its HTTP
  response or file name.
- `_precio_y_descuento` in `Compras/comodin/utils_pedido.py` is identical to
  the copy in `Compras/services/icg_pedidos.py`, so it is modelled once, as
  `PedidosIcg`'s.
- The browser scripts of the admin templates are not modelled.
- ClienteIcg: the geodesic distance between a customer and a store is a
  function parameter. What is modelled is the choice `determinarSucursal`
  makes: the first active zone with complete data whose radius, truncated
  to an integer, contains the customer.
- Strip (`Textos.Strip`): text is modelled as ASCII. The model removes the
  ASCII characters Python counts as whitespace: the blank, `\t`, `\n`, `\r`,
  `\x0b`, `\x0c` and the separators `\x1c` to `\x1f`. Python's `str.strip`
  also removes `\x85`, `\xa0` and the other Unicode blanks, which the model
  does not.
- Upper (`Textos.Upper`): text is modelled as ASCII, and only `a`-`z` are
  changed; in Python `'é'.upper()` is `'É'`.
- Lower (`Textos.Lower`): text is modelled as ASCII, and only `A`-`Z` are
  changed.
- Capitalizar (`ProcesosAdmin.Capitalizar`): ASCII letters only. Python's
  `str.capitalize` also changes non-ASCII letters and can change the
  length (`'ß'` becomes `'Ss'`), so the kept length holds for ASCII text.
- ParseInt (`Textos.ParseInt`): numerals are a sign and ASCII digits.
  `int()` also accepts underscores between digits (`'1_000'`) and
  non-ASCII digits; the model reads them as failures.
- ParseDecimal (`FormularioLineas.ParseDecimal`): numerals are a sign,
  digits and one point. `Decimal()` also accepts exponents (`'1e3'`),
  underscores, `'NaN'` and `'Infinity'`; the model reads them as failures.
- Dec (`FormularioLineas.Dec`): the exponent, underscore, `NaN` and
  `Infinity` forms give no value in the model, as in `ParseDecimal`.
- Reparto (`PresupuestoUtils.Reparto`): the proportional share is the
  rounding of the exact value. The program rounds `restante * (p / suma)`
  with the quotient cut to `Decimal`'s 28 digits
  (`presupuesto/utils.py:667-668`). Near a tie the two differ: days 5.00 and
  7.00, with the edited day set to 98.38, end 0.68 and 0.94 in the program
  but 0.67 and 0.95 in the model. The sum to 100 and the half-hundredth
  bound hold for both roundings.
- AjusteReparto (`PresupuestoUtils.AjusteReparto`): states Reparto's share,
  with the same exact quotient.
- ReasignarOtros (`PresupuestoUtils.ReasignarOtros`): gives each other day
  Reparto's share, with the same exact quotient.
- AjustarPresupuestoDiario (`PresupuestoUtils.AjustarPresupuestoDiario`):
  inherits the exact-quotient share, and with it where the residual goes.
- LineasGeneradas (`OrdenesCompra.LineasGeneradas`): states the evidently
  intended generation. As written, `prov[:8]` raises `TypeError` (see
  the Findings below, and `OrdenesCompra.GeneracionEscrita` for the program as
  written), so no line of a lot with an included line ends ORDENADA.
- MarcadasHasta (`OrdenesCompra.MarcadasHasta`): the intended generation;
  as written no group is written.
- OrdenesGeneradas (`OrdenesCompra.OrdenesGeneradas`): the intended
  generation; as written a lot with an included line gets no order and is
  not COMPLETADO.
- TotalGeneracion (`OrdenesCompra.TotalGeneracion`): the intended
  generation; as written no order, and so no total, exists.
- TotalesHasta (`OrdenesCompra.TotalesHasta`): the intended generation; as
  written the first orders are never created.
- SumaGrupo (`OrdenesCompra.SumaGrupo`): the intended generation; as
  written the order is never created.
- EscribirOrden (`OrdenesCompra.EscribirOrden`): the intended generation;
  as written the order is never created.
- GenerarOrdenes (`OrdenesCompra.GenerarOrdenes`): the intended generation;
  as written a lot raises when one of its lines is included.
- AccionGenerarOrdenCompra (`OrdenesCompra.AccionGenerarOrdenCompra`): the
  intended action. As written it stops at the first lot with an included
  line and shows no message; only the earlier lots end COMPLETADO.
- GeneracionesUnaMas (`OrdenesCompra.GeneracionesUnaMas`): the intended
  action; as written one more such lot raises and adds no order.
- TotalGeneradasSuma (`OrdenesCompra.TotalGeneradasSuma`): the intended
  action; as written the count message is never shown when a selected lot
  has an included line.
- ImportarComoAccion (`OrdenesCompra.ImportarComoAccion`): the intended
  import; as written `importar_a_icg` raises the same `TypeError`
  (`Compras/admin.py:872`).
- Importar (`IcgImport.Importar`): the answer of the ICG query is a
  parameter, assumed to hold rows. As written, `ejecutar_consulta`
  (`appMercaSur/conect.py:35`) uses `pd` without importing pandas, so every
  successful query raises `NameError`, which its `except pyodbc.Error` does
  not catch.
- ActualizarProveedoresDesdeIcg
  (`ActualizarProveedores.ActualizarProveedoresDesdeIcg`): its rows are a
  parameter, assumed to come back; the same `NameError` applies as written.
- ActualizarEnIcg (`TareasIcg.ActualizarEnIcg`): the outcome of each row's
  update is a parameter. As written, `Compras/tasks.py:154` imports
  `ejecutar_consulta_simple`, which `conect.py` does not define, so the task
  fails with `ImportError` before it connects.
- EnviarRespuesta (`VistasLote.EnviarRespuesta`): the notification's outcome
  is a parameter, and the success branch is the intended one. As written,
  `Compras/admin/sugeridos.py:410` passes positional arguments to the
  keyword-only `notificar_compras_respuesta_proveedor`
  (`Compras/services/notifications.py:42`). That call always raises
  `TypeError`, which is caught, so the success message is never shown.
- ClasificacionProceso: the database rounding of the stored `suma_importe`
  and `porcentaje_acumulado` to their decimal places is not modelled.
- Exports: `ln.creado` and `ln.actualizado` on a line without those
  attributes raise `AttributeError` in `_row_from_linea`; the model reads
  the date as absent.
- RappiAuth: an `expires_in` that is present but null makes `int(None)`
  raise; the model reads a null as absent (3000 s).
- IcgImport: the process state set to PENDIENTE when it is empty
  (`Compras/services/icg_import.py:152-156`) is not modelled.
- SenalesEnvios: the `validate_unique` of the periodic-task model, which
  wants exactly one schedule, is not modelled.
- ClientesModelos.CodigoTemporal: two generated codes colliding in the
  database is not modelled; the random draws are parameters.
- RappiSync.EnviarLotesPaso: the batches sent before a failing `PUT` stay
  applied in the shop; the model reports only the error.

## Findings

| source | as written | input that shows it | evidently intended | confidence | as-written member | corrected member |
|---|---|---|---|---|---|---|
| service/clientICG.py:410-418 | each value replaces the first `?` of the display text built so far, which may be a `?` inside a value already substituted | statement `? ?` with the text values `a?` and `b` is shown as `'a'b'' ?` | the placeholders of the statement replaced by the values in order: `'a?' 'b'` | not executed | ClienteIcg.MarcaEnValor | ClienteIcg.SustitucionIntencionada |
| Compras/admin.py:967-994 | a discount propagated to a sibling line earlier in the same POST is overwritten when that sibling's copy, read before the loop, is saved with all eight editable fields | lines 1 and 2 with the same article and lot; the supplier sends a discount for line 1 and a remark for line 2: line 2 ends without the discount | the propagated discount kept, as the copy in `Compras/admin/sugeridos.py` does by saving only the changed fields | not executed | FormularioLineas.DescuentoPisadoAnterior | FormularioLineas.DescuentoConservadoPaquete |
| Compras/admin.py:645-650 | the order number slices the line's supplier with `prov[:8]`; the supplier is a model instance or `None`, and neither can be sliced, so the first group raises `TypeError`, the transaction rolls back and nothing is written (the same at line 872 in `importar_a_icg`) | a lot with one line of class A, quantity 5 and any supplier: the action raises instead of writing one order and marking the lot COMPLETADO | the number built from the supplier's text, `str(prov)[:8]`, and one order written per supplier and warehouse | not executed | OrdenesCompra.NumeroOrdenFalla | OrdenesCompra.OrdenesGeneradas |

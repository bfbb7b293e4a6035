# Restaurant orders: a verified model of the screens' logic

The system is a restaurant's order software. A mobile app serves waiters
and the kitchen; a web app serves the kitchen board, takeout counter,
cashier, sales history and dish catalogue. All of it runs on one hosted
database. There is no separate domain layer: the logic is in the screens.
This project models that logic in Dafny:

- the order status lifecycle. A table order is opened `Inconclusa`, sent
  `Enviado`, marked `Listo` by the kitchen, `Pendiente de cobro` when the
  waiter asks for payment, `Entregado` when the cashier collects it, and
  `Completada` when the waiter closes the bill. A takeout order starts at
  `Enviado`.
- line items and order totals (Σ cantidad·precio_unitario, money as
  integer cents).
- the waiter app's cart store and the takeout cart.
- Mexican phone numbers: ten local digits, or twelve digits beginning with
  country code 52.
- the derived views: the daily sales ledger written on collection, the
  history metrics and report, the "latest order per table" boards, the
  home screen's filters and counters, and the small validators (dish
  form, sign-up password, sign-in role routing).

One module per screen, plus three shared modules:

- `Common`: strings as `seq<char>`, `trim`, case mapping, `Number(text)`,
  and `filter`/`reduce` with their lemmas.
- `Orders`: status names, the order and line item views, the total, and
  the per-table board loop.
- `Store`: the database as a class `Db` whose methods are the screens'
  writes.

Each database call is all-or-nothing. Its error is a `bool` parameter
(`fallo`, `fail`), and so is the id the database gives a new row. The
rows a query returns are a parameter too, in the order the query asks
for. Screens whose code mutates state step by step are classes
(`PantallaHome`, `PantallaCaja`, …), with a field per piece of screen
state and a field per alert shown. Pure computations are functions with
lemmas.

The model follows the code where the code and its intent diverge:

- takeout orders are inserted already `Enviado`.
- `enviarPedido` writes `Enviado` whatever the order's status.
- collecting an order records its sales rows with no at-most-once check.
- the mobile kitchen's `colorEstado` compares lower-case `pendiente` and
  `listo`, so every status the app writes shows the default colour.
- the catalogue screen says "updated" whenever a record was being edited,
  even when it inserts because that record had no id.
- the buttons that are rendered only at one status (mark ready, collect)
  become a `requires` on the status. That is the only guard the code has.
- two defects are recorded under Findings. The screens run the written
  behaviour; each corrected definition is modelled beside it, with its
  intended property proved.

## Model

| member | source | states |
|---|---|---|
| Common.Trim | web2/src/screens/parallevar.tsx:424 | the trimmed text is the input with its leading and trailing white space cut: a slice `s[k..k+\|r\|]` with only white space before and after it, with no white space at either end, and empty exactly when the input is all white space; white space is JavaScript's set (ASCII white space, no-break space, the Unicode space separators, line and paragraph separators, byte order mark) |
| Common.TrimRodeado | web2/src/screens/parallevar.tsx:424 | text with no white space at its ends, surrounded by any white space, trims back to itself |
| Common.ParseNumber | movil2/screens/HomeScreen.tsx:166 | `Number(text)` on blank text is 0; on text whose trimmed form is an optionally signed run of decimal digits it is that integer; on any other text it is NaN (`None`) |
| Common.ParseNumberOfIntToString | movil2/screens/HomeScreen.tsx:166 | `Number` of any integer's decimal numeral, with white space around it, gives back that integer |
| Orders.Total | web2/src/screens/parallevar.tsx:378-379 | an order without line items totals 0 and a single line totals quantity·unit price; with `TotalAppend` this fixes the total of every list |
| Orders.TotalAppend | web2/src/screens/parallevar.tsx:378 | the order total of two lists of line items is the sum of their totals |
| Orders.TotalNonNegative | web2/src/screens/parallevar.tsx:378 | with non-negative quantities and prices the order total is non-negative |
| Orders.UltimoPedidoPorMesa | web2/src/screens/Cocina.tsx:129-135 | the loop's map has a key for a table exactly when some listed order is for it, and maps it to that table's first order in list order |
| Orders.PrimeroDeMesaUnico | movil2/screens/CocinaScreen.tsx:71-77 | the first order of a table is unique, so the map's value is determined |
| Store.ConEstado | web2/src/screens/Cocina.tsx:113-116 | the status update sets the status, sets the total only when one is given, and changes no other column |
| Store.Db.InsertPedido | movil2/screens/HomeScreen.tsx:163-172 | an order insert stores the row under the new id or, on error, writes nothing |
| Store.Db.UpdatePedido | movil2/screens/CuentaScreen.tsx:90-93 | a status update by id changes only that row, and nothing on error or when no row has that id |
| Store.Db.InsertDetalles | movil2/screens/MenuScreen.tsx:83 | a line item insert appends the rows, or nothing on error |
| Store.Db.InsertVentas | web2/src/screens/Caja.tsx:88 | a sales insert appends the rows, or nothing on error |
| Store.Db.InsertPlatillo | web2/src/screens/Platillos.tsx:99 | a dish insert stores the row under the new id, or nothing on error |
| Store.Db.UpdatePlatillo | web2/src/screens/Platillos.tsx:98 | a dish update by id replaces that row only, or nothing on error |
| Store.Db.DeletePlatillo | web2/src/screens/Platillos.tsx:133 | a dish delete removes that id, or nothing on error |
| Carrito.OrOne | movil2/store/useCarrito.ts:34 | a quantity read with 1 as its fallback is never 0, and is the quantity itself whenever that is not 0 |
| Carrito.Actualizar | movil2/store/useCarrito.ts:53-56 | the `map` keeps the length and changes only the entries with the given id |
| Carrito.ActualizarConservaIds | movil2/store/useCarrito.ts:53-56 | a `map` that keeps ids keeps every position's id, and unique ids stay unique |
| Carrito.Agregar | movil2/store/useCarrito.ts:27-40 | adding a dish already in the cart raises only its entry by one (0 counting as 1), with the length unchanged; a new dish is appended with quantity 1 and the existing entries unchanged |
| Carrito.Eliminar | movil2/store/useCarrito.ts:43-46 | removing a dish removes every entry with its id and keeps the rest, in order |
| Carrito.EliminarCuenta | movil2/store/useCarrito.ts:43-46 | removing a dish drops every copy of its entries and keeps each other entry exactly as many times as before |
| Carrito.Aumentar | movil2/store/useCarrito.ts:52-57 | increasing raises only that dish's entries by one; all other entries are untouched |
| Carrito.Disminuir | movil2/store/useCarrito.ts:59-67 | as written: the dish's entries lose one unit, and the filter keeps every entry whose quantity is not negative, including the ones at 0 |
| Carrito.DisminuirDejaCero | movil2/store/useCarrito.ts:59-67 | an entry at quantity 1 stays in the cart at quantity 0 |
| Carrito.DisminuirDesdeCero | movil2/store/useCarrito.ts:59-67 | an entry at quantity 0 stays at 0 however often it is decreased |
| Carrito.DisminuirCorregido | movil2/store/useCarrito.ts:59-67 | as the comment intends: no entry with a quantity below 1 remains, and the others are kept in order with the dish's entries one lower |
| Carrito.DisminuirCorregidoQuita | movil2/store/useCarrito.ts:59-67 | with the correction, an entry at quantity 1 leaves the cart |
| Carrito.ActualizarCantidad | movil2/store/useCarrito.ts:70-75 | the dish's entries get the quantity exactly as given, with no lower bound; all other entries are untouched |
| Carrito.ActualizarNota | movil2/store/useCarrito.ts:78-83 | the dish's entries get the note; all other entries are untouched |
| Carrito.AgregarConservaIdsUnicos | movil2/store/useCarrito.ts:24-39 | adding keeps dish ids unique and leaves an entry for the dish |
| Carrito.AgregarVecesAcumula | movil2/store/useCarrito.ts:27-40 | adding a new dish `n` times appends one entry with quantity `n` |
| Carrito.AgregarAlUltimo | movil2/store/useCarrito.ts:29-37 | adding a dish whose only entry is last raises that entry alone |
| Carrito.AccionesConservanIdsUnicos | movil2/store/useCarrito.ts:43-83 | removing, increasing, decreasing (as written and corrected) and both updaters keep dish ids unique |
| Carrito.CarritoStore.constructor | movil2/store/useCarrito.ts:24 | the cart starts empty |
| Carrito.CarritoStore.AgregarItem | movil2/store/useCarrito.ts:27-40 | the store's cart becomes `Agregar` of the old one, keeping ids unique |
| Carrito.CarritoStore.EliminarItem | movil2/store/useCarrito.ts:43-46 | the store's cart becomes `Eliminar` of the old one, keeping ids unique |
| Carrito.CarritoStore.Limpiar | movil2/store/useCarrito.ts:49 | clearing yields the empty cart |
| Carrito.CarritoStore.AumentarItem | movil2/store/useCarrito.ts:52-57 | the store's cart becomes `Aumentar` of the old one, keeping ids unique |
| Carrito.CarritoStore.DisminuirItem | movil2/store/useCarrito.ts:59-67 | the store's cart becomes `Disminuir` of the old one, the decrease as written, keeping ids unique |
| Carrito.CarritoStore.ActualizarCantidadItem | movil2/store/useCarrito.ts:70-75 | the store's cart becomes `ActualizarCantidad` of the old one, keeping ids unique |
| Carrito.CarritoStore.ActualizarNotaItem | movil2/store/useCarrito.ts:78-83 | the store's cart becomes `ActualizarNota` of the old one, keeping ids unique |
| ParaLlevar.LimpiarTelefono | web2/src/screens/parallevar.tsx:237 | cleaning keeps only digits, in their original order |
| ParaLlevar.LimpiarTelefonoSii | web2/src/screens/parallevar.tsx:237 | a character survives cleaning exactly when it is a digit of the input |
| ParaLlevar.LimpiarDigitos | web2/src/screens/parallevar.tsx:237 | text made only of digits is its own cleaned form |
| ParaLlevar.LimpiarConcat | web2/src/screens/parallevar.tsx:237 | cleaning a concatenation cleans each part |
| ParaLlevar.NormalizarTelMX | web2/src/screens/parallevar.tsx:241-248 | no digits gives `""`, ten digits get `52` in front, and anything else is the cleaned digits unchanged; the result is all digits |
| ParaLlevar.ValidarTelSiiNormalizado | web2/src/screens/parallevar.tsx:245-255 | a number is valid exactly when it normalises to twelve digits starting with `52` |
| ParaLlevar.NormalizarIdempotente | web2/src/screens/parallevar.tsx:241-248 | normalising a normalised number changes nothing |
| ParaLlevar.NormalizarDoce | web2/src/screens/parallevar.tsx:245-247 | twelve digits are already normal |
| ParaLlevar.NormalizarConPrefijo | web2/src/screens/parallevar.tsx:241-248 | ten local digits and the same digits typed after `52` normalise to the same number |
| ParaLlevar.FindIndex | web2/src/screens/parallevar.tsx:396 | `findIndex` gives the first position of the dish, or -1 when no entry has it |
| ParaLlevar.AddToCarrito | web2/src/screens/parallevar.tsx:394-404 | adding raises the first entry of the dish by one, or appends it with quantity 1 and no note |
| ParaLlevar.ChangeQty | web2/src/screens/parallevar.tsx:406-412 | the dish's entries move by the step but never below 1; all other entries are untouched |
| ParaLlevar.RemoveItem | web2/src/screens/parallevar.tsx:414-416 | removing keeps exactly the entries of other dishes, in order |
| ParaLlevar.RemoveItemCuenta | web2/src/screens/parallevar.tsx:414-416 | removing a dish drops every copy of its entries and keeps each other entry exactly as many times as before |
| ParaLlevar.TotalCarrito | web2/src/screens/parallevar.tsx:381-384 | an empty cart totals 0 and a single entry totals quantity·catalogue price |
| ParaLlevar.UpdateItemNota | web2/src/screens/parallevar.tsx:418-420 | the dish's entries get the note; all other entries are untouched |
| ParaLlevar.AddToCarritoConserva | web2/src/screens/parallevar.tsx:394-404 | adding keeps one entry per dish and at least one unit per entry |
| ParaLlevar.ChangeQtyConserva | web2/src/screens/parallevar.tsx:406-412 | changing a quantity keeps one entry per dish and at least one unit per entry |
| ParaLlevar.RemoveItemConserva | web2/src/screens/parallevar.tsx:414-416 | removing keeps one entry per dish and at least one unit per entry |
| ParaLlevar.UpdateItemNotaConserva | web2/src/screens/parallevar.tsx:418-420 | a note update keeps one entry per dish and at least one unit per entry |
| ParaLlevar.AddToCarritoTotal | web2/src/screens/parallevar.tsx:381-404 | adding a dish raises the cart total by the price of the entry that gained the unit |
| ParaLlevar.NotaONull | web2/src/screens/parallevar.tsx:463 | the stored note is null exactly for a missing or blank text, and otherwise the trimmed text |
| ParaLlevar.ValidarPedido | web2/src/screens/parallevar.tsx:424-440 | the form is refused for a blank name first, then an invalid phone, then an empty cart, and accepted exactly when none applies |
| ParaLlevar.FilaParaLlevar | web2/src/screens/parallevar.tsx:455-468 | the takeout row is `Enviado`, type `llevar`, with no table or occupants, the trimmed name, the normalised phone and the trimmed note or null |
| ParaLlevar.DetalleRows | web2/src/screens/parallevar.tsx:474-481 | one line item row per cart entry, in order, at the catalogue price, with subtotal = quantity·price |
| ParaLlevar.DetalleRowsTotal | web2/src/screens/parallevar.tsx:381-384 | the written subtotals add up to the cart total shown |
| ParaLlevar.PedidosParaLlevar | web2/src/screens/parallevar.tsx:343-345 | the listed orders are a sublist of the store's, in order |
| ParaLlevar.PedidosParaLlevarSii | web2/src/screens/parallevar.tsx:343-345 | an order is listed exactly when it is a takeout order at `Enviado` or `Listo` |
| ParaLlevar.PedidosParaLlevarOrdenados | web2/src/screens/parallevar.tsx:345 | newest first stays newest first |
| ParaLlevar.Reconciliar | web2/src/screens/parallevar.tsx:354-357 | with orders listed, an empty, 0 or unlisted selection becomes the first listed order and a listed selection is kept, so the result is always a listed order; with none listed the selection is cleared, except that id 0 is left as it was |
| ParaLlevar.ReconciliarIdempotente | web2/src/screens/parallevar.tsx:354-357 | reconciling twice with the same list selects the same order |
| ParaLlevar.Registrar | web2/src/screens/parallevar.tsx:449-489 | the user check, the order insert and the line item insert run in order, and the first failure stops the sequence |
| ParaLlevar.PantallaParaLlevar.constructor | web2/src/screens/parallevar.tsx:218-232 | the screen starts with empty lists, form and cart, and loading |
| ParaLlevar.PantallaParaLlevar.FetchPedidos | web2/src/screens/parallevar.tsx:317-365 | an error empties the list and keeps the selection; otherwise the open takeout orders are listed and the selection reconciled |
| ParaLlevar.PantallaParaLlevar.AbrirWhatsApp | web2/src/screens/parallevar.tsx:257-266 | a number that normalises to nothing raises the missing-contact alert; any other opens one message to the normalised number |
| ParaLlevar.PantallaParaLlevar.AgregarAlCarrito | web2/src/screens/parallevar.tsx:394-404 | the cart becomes `AddToCarrito` of the old one |
| ParaLlevar.PantallaParaLlevar.CambiarCantidad | web2/src/screens/parallevar.tsx:406-412 | the cart becomes `ChangeQty` of the old one |
| ParaLlevar.PantallaParaLlevar.QuitarDelCarrito | web2/src/screens/parallevar.tsx:414-416 | the cart becomes `RemoveItem` of the old one |
| ParaLlevar.PantallaParaLlevar.CambiarNota | web2/src/screens/parallevar.tsx:418-420 | the cart becomes `UpdateItemNota` of the old one |
| ParaLlevar.PantallaParaLlevar.CrearPedidoParaLlevar | web2/src/screens/parallevar.tsx:423-520 | a refused form writes nothing, raises its alert and leaves every other field of the screen (form, cart, list, selection, flags, messages) as it was; an accepted one has the effect `Confirmado` with the normalised phone, which states every field |
| ParaLlevar.PantallaParaLlevar.Confirmar | web2/src/screens/parallevar.tsx:442-519 | the writes are those of `Registrar`; a failure keeps the form, cart, list, selection, loading and error flags and messages and raises the failure alert (permission denied for a row-level security error); success clears form and cart, reloads (loading ends, the error flag follows the reload), selects the new order and opens the customer's message; `creando` is down on every way out |
| ParaLlevar.PantallaParaLlevar.TrasCrear | web2/src/screens/parallevar.tsx:491-504 | after creation the form and cart are empty, the list is reloaded with loading ended and the error flag set by the reload, the new order is selected, one message goes to the customer, and `creando` is untouched |
| ParaLlevar.PantallaParaLlevar.MarcarListo | web2/src/screens/parallevar.tsx:522-537 | one update writes `Listo` with the recomputed total; on success the list is reloaded (empty and the error flag up when the reload fails), the selection reconciled against the reloaded list (kept when the reload fails), loading ends and the customer's message is opened when the phone normalises; on failure only the alert changes |
| Menu.CantidadMenos | movil2/screens/MenuScreen.tsx:205 | the minus button never goes below 1 and otherwise subtracts one |
| Menu.DetalleMenu | movil2/screens/MenuScreen.tsx:72-81 | the inserted line item is for the table's order, at the dish's price, with subtotal = price·quantity and the note as typed |
| Menu.DetalleMenuTotal | movil2/screens/MenuScreen.tsx:72-81 | read back as a line item, the row adds its own subtotal to the order total |
| Menu.PantallaMenu.constructor | movil2/screens/MenuScreen.tsx:24-27 | the modal starts closed with quantity 1 and no note |
| Menu.PantallaMenu.AbrirModalNota | movil2/screens/MenuScreen.tsx:60-65 | opening the modal selects the dish, clears the note and resets the quantity to 1 |
| Menu.PantallaMenu.Menos | movil2/screens/MenuScreen.tsx:205 | the quantity becomes `CantidadMenos` of the old one and stays at least 1 |
| Menu.PantallaMenu.Mas | movil2/screens/MenuScreen.tsx:214 | the plus button adds exactly one |
| Menu.PantallaMenu.EscribirNota | movil2/screens/MenuScreen.tsx:226 | typing sets the note |
| Menu.PantallaMenu.Cancelar | movil2/screens/MenuScreen.tsx:233 | cancel closes the modal |
| Menu.PantallaMenu.ConfirmarAgregar | movil2/screens/MenuScreen.tsx:68-97 | with no table nothing is written; otherwise the selected dish is inserted as one line item, and the modal closes whether the insert succeeded or not |
| Menu.PantallaMenu.EnviarPedido | movil2/screens/MenuScreen.tsx:100-119 | the table's order is set `Enviado` with no check of its status or line items; with no table nothing is written |
| Home.MesasDe | movil2/screens/HomeScreen.tsx:121-130 | every table listed is an order of the store, of this waiter, and not `Completada`; no more tables than orders |
| Home.MesasDeSii | movil2/screens/HomeScreen.tsx:121-130 | the waiter's tables are exactly this waiter's orders that are not `Completada` |
| Home.MesasDeOrdenadas | movil2/screens/HomeScreen.tsx:127 | newest first stays newest first |
| Home.Nombres | movil2/screens/HomeScreen.tsx:211-213 | one dish name per line item, `""` when missing |
| Home.Filtrado | movil2/screens/HomeScreen.tsx:203-219 | every table shown is a listed table that has the chip's status (unless `Todas`) and matches the search, or the search is blank |
| Home.FiltradoTodas | movil2/screens/HomeScreen.tsx:203-206 | `Todas` with a blank search shows every table unchanged |
| Home.FiltradoSublista | movil2/screens/HomeScreen.tsx:203-219 | the tables shown are a sublist of the input, in order |
| Home.FiltradoSii | movil2/screens/HomeScreen.tsx:203-219 | a table is shown exactly when it has the chip's status (unless `Todas`) and the trimmed, lower-cased query is in `mesa N`, the note or the joined dish names |
| Home.FiltradoSinTexto | movil2/screens/HomeScreen.tsx:205-206 | with a blank search only the status filter applies |
| Home.FiltradoSoloTexto | movil2/screens/HomeScreen.tsx:206-216 | under `Todas` only the search applies |
| Home.FiltradoAmbos | movil2/screens/HomeScreen.tsx:205-216 | with both, the status filter runs first and the search second |
| Home.Filtrar | movil2/screens/HomeScreen.tsx:203-219 | the step-by-step narrowing of `out` gives exactly the filtered tables |
| Home.Contar | movil2/screens/HomeScreen.tsx:225-227 | a status counter is at most the number of tables |
| Home.ContarCons | movil2/screens/HomeScreen.tsx:225-227 | a counter counts the first table when it has the status, plus the rest |
| Home.ContadoresAcotados | movil2/screens/HomeScreen.tsx:224-227 | the Inconclusa, Enviado and Entregado counters add up to at most the total count |
| Home.TotalMesa | movil2/screens/HomeScreen.tsx:258-262 | a table without line items is estimated at 0, and a single line at the dish's catalogue price (0 when missing) times the quantity |
| Home.TotalMesaConPrecioVigente | movil2/screens/HomeScreen.tsx:258-262 | the card's estimate at catalogue prices is the order total when every catalogue price is still the price the item was taken at |
| Home.TotalMesaSinPrecio | movil2/screens/HomeScreen.tsx:258-262 | line items whose dish has no price count 0, whatever price they were taken at |
| Home.PulsarChip | movil2/screens/HomeScreen.tsx:363-373 | pressing the active chip resets to `Todas`; any other chip becomes the filter |
| Home.Ocupantes | movil2/screens/HomeScreen.tsx:167 | the stored occupants are null exactly for text that reads as 0 or is not a number, and otherwise its value |
| Home.FilaMesa | movil2/screens/HomeScreen.tsx:163-172 | the new table row is this waiter's, `Inconclusa`, total 0, with the typed number, occupants, note and date |
| Home.FilaMesaNumero | movil2/screens/HomeScreen.tsx:166 | typing a decimal table number stores that number |
| Home.PantallaHome.constructor | movil2/screens/HomeScreen.tsx:26-34 | the screen starts with no tables, `Todas`, a blank search and a closed, empty modal |
| Home.PantallaHome.FetchMesas | movil2/screens/HomeScreen.tsx:120-134 | the list becomes the waiter's tables, or is kept on error |
| Home.PantallaHome.Chip | movil2/screens/HomeScreen.tsx:373 | the filter becomes `PulsarChip` of the old one |
| Home.PantallaHome.AgregarMesa | movil2/screens/HomeScreen.tsx:160-188 | an empty table number writes nothing; otherwise one `Inconclusa` row is inserted, with the effect `Guardada` |
| Home.PantallaHome.GuardarMesa | movil2/screens/HomeScreen.tsx:163-182 | on failure the store and the modal's fields are as they were and the failure shows; on success the row is stored and the modal closed and cleared |
| Cuenta.BuscarPorId | movil2/screens/CuentaScreen.tsx:35-50 | the order found has the requested id and is in the store; none exactly when no order has it |
| Cuenta.Acciones | movil2/screens/CuentaScreen.tsx:202-224 | payment can be requested exactly at `Listo`; ticket and closing are offered exactly at `Entregado` |
| Cuenta.TotalEsSumaDeLineas | movil2/screens/CuentaScreen.tsx:127-130 | the bill's and the ticket's total is the sum of the line amounts the bill shows |
| Cuenta.PantallaCuenta.constructor | movil2/screens/CuentaScreen.tsx:18-20 | the screen starts loading, with no order |
| Cuenta.PantallaCuenta.FetchPedido | movil2/screens/CuentaScreen.tsx:35-50 | the order becomes the one with the screen's id, or is kept on error; loading ends |
| Cuenta.PantallaCuenta.PedirCobroCuenta | movil2/screens/CuentaScreen.tsx:84-101 | away from `Listo` nothing is written; from `Listo` the one write sets `Pendiente de cobro` and nothing else |
| Cuenta.PantallaCuenta.FinalizarCuenta | movil2/screens/CuentaScreen.tsx:104-122 | away from `Entregado` nothing is written; from `Entregado` the one write sets `Completada`, and success goes back home |
| Cocina.MapearDetalle | web2/src/screens/Cocina.tsx:86-94 | a missing dish becomes `Desconocido` / `Sin descripción`; quantity, price and note are copied |
| Cocina.MapearPedido | web2/src/screens/Cocina.tsx:81-95 | id, table, status and creation time are copied and every line item is mapped |
| Cocina.MapearConservaTotal | web2/src/screens/Cocina.tsx:81-95 | mapping keeps the order total |
| Cocina.MapearTodos | web2/src/screens/Cocina.tsx:81 | every order is mapped, in order |
| Cocina.PedidosCocina | web2/src/screens/Cocina.tsx:71-95 | every order on the board is `Enviado` or `Listo`; no more orders than the store has |
| Cocina.PedidosCocinaSii | web2/src/screens/Cocina.tsx:71 | every order on the board is `Enviado` or `Listo` and comes from the store, and each such order of the store is on the board |
| Cocina.PedidosCocinaOrdenados | web2/src/screens/Cocina.tsx:72 | newest `created_at` first stays newest first |
| Cocina.MesaColor | web2/src/screens/Cocina.tsx:142-147 | a free table, `Enviado` and `Listo` each have their own colour; every other status gets the fallback |
| Cocina.MesaBadge | web2/src/screens/Cocina.tsx:149-152 | `LIBRE` for a free table, otherwise the status in capitals |
| Cocina.MesaBadgeNoLibre | web2/src/screens/Cocina.tsx:149-152 | a table whose order has any status the app writes never shows `LIBRE` |
| Cocina.PantallaCocina.constructor | web2/src/screens/Cocina.tsx:27-31 | the board starts loading, empty, with table 1 selected |
| Cocina.PantallaCocina.FetchPedidos | web2/src/screens/Cocina.tsx:53-104 | the list becomes the board's orders, or empty when the query fails; loading ends |
| Cocina.PantallaCocina.SeleccionarMesa | web2/src/screens/Cocina.tsx:205 | choosing a table selects it |
| Cocina.PantallaCocina.PedidoSeleccionado | web2/src/screens/Cocina.tsx:137-139 | the selected table's order is its first listed order, or none when it has no order |
| Cocina.PantallaCocina.MarcarListo | web2/src/screens/Cocina.tsx:106-126 | one write sets `Listo` with total = Σ precio_unitario·cantidad; success reloads the board, failure only alerts |
| CocinaMovil.PrimeroEsMayorId | movil2/screens/CocinaScreen.tsx:64-77 | with the list by id descending, a table's first order has the highest id of that table |
| CocinaMovil.PedidosMesa | movil2/screens/CocinaScreen.tsx:89-91 | every order in a table's list is an order of the list with that table number |
| CocinaMovil.PedidosMesaSii | movil2/screens/CocinaScreen.tsx:89-91 | the table's list is exactly the orders with that table number |
| CocinaMovil.PedidosMesaOrden | movil2/screens/CocinaScreen.tsx:89-91 | the table's list keeps list order |
| CocinaMovil.ColorEstado | movil2/screens/CocinaScreen.tsx:79-86 | no status is free, lower-case `pendiente` amber, lower-case `listo` green, anything else blue |
| CocinaMovil.ColorEstadoSiempreAzul | movil2/screens/CocinaScreen.tsx:79-86 | every status the app writes gets the blue default |
| CocinaMovil.Badge | movil2/screens/CocinaScreen.tsx:132 | `LIBRE` for a table without an order, otherwise the status in capitals |
| CocinaMovil.BadgeNoLibre | movil2/screens/CocinaScreen.tsx:132 | a table whose order has a status of the app never shows `LIBRE` |
| CocinaMovil.AlertaListoNuncaSalta | movil2/screens/CocinaScreen.tsx:31-36 | the realtime test as written never fires for a status the app writes |
| CocinaMovil.AlertaListoSalta | movil2/screens/CocinaScreen.tsx:31-36 | the corrected test fires exactly when the new status is `Listo`, where the written one does not |
| CocinaMovil.PantallaCocinaMovil.constructor | movil2/screens/CocinaScreen.tsx:15-20 | the screen starts loading, empty, with table 1 selected |
| CocinaMovil.PantallaCocinaMovil.FetchPedidos | movil2/screens/CocinaScreen.tsx:49-67 | the list becomes every order, whatever its status, or is kept on error; the id-descending order holds |
| CocinaMovil.PantallaCocinaMovil.SeleccionarMesa | movil2/screens/CocinaScreen.tsx:111 | choosing a table selects it |
| CocinaMovil.PantallaCocinaMovil.PedidoDeMesa | movil2/screens/CocinaScreen.tsx:71-77 | a table's cell shows its order with the highest id, or none when it has none |
| CocinaMovil.PantallaCocinaMovil.AlCambiarPedido | movil2/screens/CocinaScreen.tsx:30-38 | a change alerts exactly when the written test (new status lower-case `listo`) passes, and otherwise keeps the alert; then it reloads |
| Caja.Recalcular | web2/src/screens/Caja.tsx:45-51 | the stored total is replaced by the sum over the order's line items; nothing else changes |
| Caja.RecalcularTodos | web2/src/screens/Caja.tsx:45 | every order is recomputed, in order |
| Caja.PedidosCaja | web2/src/screens/Caja.tsx:37-51 | every listed order is awaiting payment or paid and carries its own line items' total; no more orders than the store has |
| Caja.PedidosCajaListados | web2/src/screens/Caja.tsx:37-51 | every listed order is awaiting payment or paid, comes from the store, and carries its own line items' total |
| Caja.PedidosCajaCompleto | web2/src/screens/Caja.tsx:37-51 | every such order of the store is listed |
| Caja.NombreVenta | web2/src/screens/Caja.tsx:81 | a missing or blank dish name becomes `Desconocido`; a present one is kept |
| Caja.VentasDe | web2/src/screens/Caja.tsx:78-86 | one sales row per line item, in order, copying the order id, table, quantity and price, with the name, description and date |
| Caja.VentasDeTotal | web2/src/screens/Caja.tsx:78-86 | an order's sales rows add up to the order's total |
| Caja.RegistrarVenta | web2/src/screens/Caja.tsx:72-94 | an order with no line items records nothing; otherwise its rows are appended together, or nothing on error |
| Caja.TotalGeneral | web2/src/screens/Caja.tsx:114-118 | with no order `Pendiente de cobro` the pending sum is 0, and with no negative totals it is non-negative |
| Caja.TotalGeneralAgregar | web2/src/screens/Caja.tsx:114-118 | an order adds its total to the pending sum only when it is `Pendiente de cobro` |
| Caja.PantallaCaja.constructor | web2/src/screens/Caja.tsx:21 | the list starts empty |
| Caja.PantallaCaja.FetchPedidos | web2/src/screens/Caja.tsx:23-55 | the list becomes the cashier's orders with recomputed totals, or is kept on error |
| Caja.PantallaCaja.AlCambiarPedido | web2/src/screens/Caja.tsx:61-65 | a change reloads only when the order is now awaiting payment or paid |
| Caja.PantallaCaja.MarcarEntregado | web2/src/screens/Caja.tsx:97-112 | the `Entregado` write comes first; if it fails no sales are recorded; otherwise the order's sales rows are recorded, with no check that they were not recorded before, and the list reloads |
| Historial.Ventana | web2/src/screens/Historial.tsx:33-34 | the query window runs from the date's `T00:00:00` to its `T23:59:59` |
| Historial.TotalVentas | web2/src/screens/Historial.tsx:54 | a day without sales totals 0, and a single row totals quantity·unit price |
| Historial.IdsPedidos | web2/src/screens/Historial.tsx:55 | the set holds exactly the rows' order ids, no more of them than rows |
| Historial.PedidosTotales | web2/src/screens/Historial.tsx:55-56 | the number of distinct orders is at most the number of rows, and 0 exactly when there are none |
| Historial.Promedio | web2/src/screens/Historial.tsx:57 | the average times the number of orders is the total, and 0 without sales |
| Historial.PromedioNoNegativo | web2/src/screens/Historial.tsx:54-57 | with non-negative amounts the total and the average are non-negative |
| Historial.MetricasDeUnPedido | web2/src/screens/Historial.tsx:53-60 | one collected order's rows count one order and add up to its total |
| Historial.EtiquetaMesa | web2/src/screens/Historial.tsx:79 | `Mesa N` for a truthy table number, else `Para llevar` |
| Historial.EtiquetaParaLlevar | web2/src/screens/Historial.tsx:308 | a takeout order's rows are all labelled `Para llevar` |
| Historial.FilaDe | web2/src/screens/Historial.tsx:77-85 | a report row copies the sale, labels the table, shows `-` for a blank description, and has subtotal = quantity·price |
| Historial.GenerarReporte | web2/src/screens/Historial.tsx:62-98 | no report exactly for a day without sales; otherwise one row per sale, the dishes sold and a total equal to the metrics' total |
| Historial.ReporteCuadra | web2/src/screens/Historial.tsx:77-97 | the report's subtotal column adds up to its total line |
| Platillos.ImagenFinal | web2/src/screens/Platillos.tsx:81-86 | the uploaded file's address when a file was chosen, else the existing address when not blank, else null |
| Platillos.DatosAGuardar | web2/src/screens/Platillos.tsx:89-95 | the saved row carries the form's name, description, price, active flag and the chosen image |
| Platillos.Buscar | web2/src/screens/Platillos.tsx:151-154 | the selected dish has the selected id and is listed; none exactly when no dish has it |
| Platillos.PantallaPlatillos.constructor | web2/src/screens/Platillos.tsx:18-32 | the screen starts with an empty form, nothing edited or selected, and not saving |
| Platillos.PantallaPlatillos.FetchPlatillos | web2/src/screens/Platillos.tsx:34-42 | the list becomes the catalogue, or is kept on error |
| Platillos.PantallaPlatillos.ComenzarGuardar | web2/src/screens/Platillos.tsx:69-79 | while saving, a save does nothing; an invalid form is refused before the flag is set; otherwise the flag is set |
| Platillos.PantallaPlatillos.TerminarGuardar | web2/src/screens/Platillos.tsx:81-127 | a failed upload writes nothing, alerts and leaves form, edit, file, selection and list as they were; an edited record with an id is updated, anything else inserted, with the chosen image; a failed write alerts and leaves the same fields as they were; success resets form, edit, file and selection and reloads the list; the flag is cleared on every way out |
| Platillos.PantallaPlatillos.Guardar | web2/src/screens/Platillos.tsx:69-128 | a save during a save changes nothing at all; a refused form writes nothing, alerts, and leaves form, edit, file, selection, list and flag as they were; a save that starts ends as `TerminarGuardar` states (write, reset, reload, flag cleared) |
| Platillos.PantallaPlatillos.Eliminar | web2/src/screens/Platillos.tsx:130-142 | nothing without confirmation; after a delete the selection is cleared only when it was the deleted dish |
| Platillos.PantallaPlatillos.Editar | web2/src/screens/Platillos.tsx:144-149 | the form takes the dish, it becomes the one edited, the file is dropped, and a dish with an id is selected |
| Platillos.PantallaPlatillos.Nuevo | web2/src/screens/Platillos.tsx:176-188 | an empty form with nothing edited or selected |
| Login.PrefijoEmail | movil2/Fauth/LoginScreen.tsx:85 | the name is the text before the first `@`, or all of it |
| Login.PerfilFinal | movil2/Fauth/LoginScreen.tsx:83-87 | the stored profile, or a `Mesero` profile with the user's id and the address's prefix |
| Login.Destino | movil2/Fauth/LoginScreen.tsx:91-96 | `Mesero` opens the tables, `Cocina` the kitchen, and any other role opens nothing |
| Login.SinPerfilEsMesero | movil2/Fauth/LoginScreen.tsx:83-94 | a user without a stored profile lands on the tables |
| Login.PantallaLogin.constructor | movil2/Fauth/LoginScreen.tsx:22-25 | the screen starts with empty fields and no request sent |
| Login.PantallaLogin.HandleLogin | movil2/Fauth/LoginScreen.tsx:49-104 | empty fields send no request; a sign-in error or a missing user shows an error and does not navigate; otherwise the role's screen opens with the profile, or an unknown role shows an error |
| Register.Chequear | movil2/Fauth/RegisterScreen.tsx:48-56 | empty fields are refused first, then a password whose JavaScript `length` (UTF-16 code units) is under six; anything else is sent |
| Register.PistaDe | movil2/Fauth/RegisterScreen.tsx:157-165 | by the password's UTF-16 length, the hint is advice for 0, "muy corta" for 1–5, "media" for 6–9 and "buena" from 10 |
| Register.ContrasenaAstral | movil2/Fauth/RegisterScreen.tsx:53 | three characters outside the Basic Multilingual Plane make a password of length six: it is sent and the hint says "media" |
| Register.PistaCoincideConChequeo | movil2/Fauth/RegisterScreen.tsx:53-56 | with both fields filled, the hint says "muy corta" exactly when the length check refuses the password |
| Register.PantallaRegistro.constructor | movil2/Fauth/RegisterScreen.tsx:21-24 | the screen starts with empty fields and no request sent |
| Register.PantallaRegistro.HandleRegister | movil2/Fauth/RegisterScreen.tsx:47-83 | a refused form sends no request and shows its alert; otherwise one request is sent and its error or success shown |

## Left out

- Database, realtime and auth calls are not modelled as code. Each becomes a parameter: the rows a query returns, whether a call fails, and the id the store gives. The realtime subscriptions are the handler methods (`AlCambiarPedido`), called with the changed row.
- Exceptions thrown by the database client are folded into the same `fallo` parameter as a returned error.
- `Db`: a single write is atomic; several screens writing at once, and the order in which their reloads land, are not modelled.
- The WhatsApp notice (`window.open`) is recorded as a message appended to `whatsapp`. URL encoding is not modelled.
- Image upload is a parameter: the address the storage returns, or none when the upload fails.
- The PDF report and the bill's ticket are modelled as their rows and totals; drawing, printing and sharing are left out.
- Money is in integer cents. `toFixed`, `toLocaleString` and currency display are left out. `Historial.Promedio` is a `real`.
- ParseNumber covers blank text and optionally signed decimal integers; decimals, exponents, hex, binary and octal prefixes and `Infinity` are read as NaN (`None`) instead of their value. A dish's `precio` is an integer as the form holds it, so `Number(nuevo.precio)` is the identity.
- Utf16Length counts a character outside the Basic Multilingual Plane as two code units; a lone surrogate, which a JavaScript string can hold, has no `char` here and is not modelled.
- Lower and Upper map ASCII and the Latin-1 letters (with `ÿ` and `µ` going to their Unicode capitals) and leave every other character as it is; JavaScript's full Unicode case mapping, and `ß` becoming `SS`, are left out.
- Dates are parameters (`fecha`, `createdAt`); the clock and ISO formatting are left out.
- `Historial.Ventana` builds the window's two bounds; the query that compares them with stored dates, and `fetchVentas` itself, are not modelled.
- Styling, animation, layout and navigation are left out, including the status colours of the takeout, home and cashier screens and the takeout screen's dish search (`platillosFiltrados`). The kitchen screens' colours are modelled because they decide what a table shows.
- Alerts and messages are enums; their exact wording is left out, except the WhatsApp texts (`ParaLlevar.Texto`).
- The menu screen's dish list (`fetchPlatillos`) and the takeout screen's catalogue load are left out; a dish is given as a parameter.
- `ParaLlevar.PantallaParaLlevar.FetchPedidos` reconciles against the selection when the reload starts. It does not model that, in the code, `crearPedidoParaLlevar` reads an older value captured by the rendered closure; the new order is selected right after, as in the code.
- Login's catch path (a thrown error during profile lookup) is folded into the sign-in error.
- The home screen's `user.id` on a missing user throws; the model takes the signed-in user as given.
- `Cuenta.PantallaCuenta.PedirCobroCuenta` and `Cuenta.PantallaCuenta.FinalizarCuenta` require a loaded order: the screen renders no buttons until the order is loaded.
- `Cocina.PantallaCocina.MarcarListo`, `Caja.PantallaCaja.MarcarEntregado` and `ParaLlevar.PantallaParaLlevar.MarcarListo` require the status at which their button is rendered; the code checks nothing more.

## Findings

| source | as written | input that shows it | evidently intended | confidence | as-written member | corrected member |
|---|---|---|---|---|---|---|
| movil2/store/useCarrito.ts:59-67 | after the decrement, entries are kept when `(cantidad \|\| 1) > 0`, so an entry at 0 counts as 1 and stays | a cart with one entry at quantity 1, then `disminuir` of its id: the entry stays at quantity 0 | an entry that reaches 0 leaves the cart, as the comment on `disminuir` says | not executed | Carrito.DisminuirDejaCero | Carrito.DisminuirCorregidoQuita |
| movil2/screens/CocinaScreen.tsx:31-36 | the realtime handler alerts when the new status is lower-case `listo` | an order set `Listo` by the kitchen: the status is `Listo`, never `listo`, so no alert shows | alert when an order becomes `Listo`, the status the kitchen writes | not executed | CocinaMovil.AlertaListoNuncaSalta | CocinaMovil.AlertaListoSalta |

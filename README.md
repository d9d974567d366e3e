# The-Roxy: a verified model of the order, quote, sales and search logic

The-Roxy is a Next.js front-end for a small wholesale/retail business (identifiers in
Spanish). Almost all of it is markup and remote database calls. This project models
the parts that compute something, and proves what they promise:

- **Delivery settlement** (`app/pedidos/page.tsx`): the payment dialog is prefilled with
  the order total. The cash and transfer texts are read with `parseInt(...) || 0`, and
  a 3% transfer fee is stripped (`tb / 1.03`). A payment that is not positive is
  refused. The balance `diferencia` becomes the client's new debt unless it is within
  ±99, in which case the debt is set to 0. Three writes follow in order (order status,
  sale record, client debt), and the first failure stops the rest. Module `Settlement`.
- **Quote builder** (`app/presupuesto/page.tsx`): the line list with add-or-merge by
  product id, the price taken from the client's list, quantity updates that remove a
  line at 0 or below, removal by index, subtotal and total, and the local list of
  saved quotes. Promoting a quote to an order inserts the order and its lines, then
  lowers each product's stock one line at a time; stock may go negative. Module `Quote`.
- **Sales report** (`app/ventas/page.tsx`): the per-sale debt, which rounds the
  fee-stripped transfer to a multiple of 100, the "Pagado" badge test, the page totals
  and the date-range guard. Module `SalesReport`.
- **Product suggestions** shared by both search boxes: the substring filter on name,
  code and category, the three-key relevance order, the cut to 8, the trimmed-length
  trigger and the arrow-key index moves. Module `ProductFilter`. The two boxes are
  classes over their React state: `ProductSearch` (`components/product-search.tsx`) and
  `ProductSearchQty` (`components/product-search-with-quantity.tsx`).
- **Products page** (`app/productos/page.tsx`): the list filter, the sorted distinct
  category list, and the form's validation order and the record it writes. Module
  `ProductsPage`.
- **Registration form** (`app/auth/register/page.tsx`): the ordered checks of
  `handleSubmit`. Module `Register`.
- **User menu** (`components/user-menu.tsx`): the avatar initials and the render
  guards. Module `UserMenu`.

Supporting modules:

- `Records`: the rows of `lib/supabase.ts`, plus a `Database` class whose fields stand
  for the remote tables.
- `JsText`: `trim`, `toLowerCase`/`toUpperCase` on ASCII, `includes`, `split`/`join`,
  and the code-unit order used for `sort()` and `localeCompare`.
- `JsNumber`: `parseInt`, `parseFloat`, number-to-text, and `Math.round`.
- `Sorting`: a stable insertion sort with its sortedness and permutation lemmas.
- `Common`: `Option`, `Result`, `Filter`, `Take`.

State the pages keep between events (React `useState`) is a class with one field per
state variable. Every handler is a method that states the whole new state. A remote
write is an update of a `Database` field. Whether a remote call fails, the clock
reading and the id the database assigns are method parameters.

Money is an exact `real` for amounts that can be fractional (totals, prices, debts,
the fee-stripped transfer). Amounts read with `parseInt` are `int`.

Where the code departs from what it evidently intends, the model follows the code:

- `components/product-search.tsx:36-45`: the effect that clears the suggestions for a
  short query does not reset the highlighted index (the same holds at
  `components/product-search-with-quantity.tsx:42-51`). So the index lies in
  `[-1, len-1]` only while the list is non-empty. `ProductSearch.Coherente` states
  exactly that.
- `components/product-search-with-quantity.tsx:97-104`: choosing a product writes its
  name into the query, and that re-runs the effect at lines 42-51. A name of two or
  more characters therefore shows the list again behind the quantity field
  (`ProductSearchQty.ProductSearchWithQuantity.SeleccionarProducto`).
- `app/auth/register/page.tsx:58-64`: `loading` is reset after the sign-up call
  returns, but there is no `finally`. It stays `true` when the call throws
  (`Register.RegisterPage.HandleSubmit`).
- `app/ventas/page.tsx:91-101` computes a sale's debt with the transfer rounded to a
  multiple of 100, while `app/pedidos/page.tsx:107-113` settled it with the exact
  fee-stripped transfer and a ±99 tolerance. The model keeps both functions and proves
  where they disagree (`SalesReport.ReportVersusSettlement`,
  `SalesReport.SettledSaleShownAsOwing`).

## Model

| member | source | states |
|---|---|---|
| Settlement.TransferValue | app/pedidos/page.tsx:78 | the transfer's worth times 1.03 is the transfer; it is 0 exactly for a zero transfer and strictly between 0 and the transfer for a positive one |
| Settlement.NuevaDeuda | app/pedidos/page.tsx:107-113 | the new debt is 0 exactly when the balance is within ±99 (boundaries included), otherwise it is the whole balance; it never differs from the balance by more than 99 |
| Settlement.Liquidar | app/pedidos/page.tsx:76-84 | the settlement is refused exactly when cash plus fee-stripped transfer is not positive; otherwise paid + balance = order total and the new debt follows the tolerance rule, independent of any previous debt |
| Settlement.SettlementExamples | app/pedidos/page.tsx:107-113 | a 50 shortfall is forgiven, a 200 shortfall and a 200 overpayment are stored, a 1030 transfer is worth 1000, a zero payment is refused |
| Settlement.PrefilledDialogSettles | app/pedidos/page.tsx:66-79 | accepting the prefilled dialog settles any order of at least 1 with no debt, a whole-number total with balance exactly 0, and refuses an order below 1 (its total reads as 0) |
| Settlement.NoticeWithinTolerance | app/pedidos/page.tsx:121-125 | inside the band and off zero, the stored debt is 0 yet the notice still reports a pending debt or an overpayment |
| Settlement.LeerMonto | app/pedidos/page.tsx:76-77 | an amount text reads as its parsed integer; it reads as 0 exactly when it has no number or the number is 0 |
| Settlement.PedidosPage.AbrirDialogoEntrega | app/pedidos/page.tsx:66-71 | the dialog opens on the order with cash = the total as text and transfer = "0" |
| Settlement.PedidosPage.Escribir | app/pedidos/page.tsx:87-119 | the writes happen in the order status, sale (raw amounts, order total), debt; a failing write skips all later ones and keeps the earlier ones |
| Settlement.PedidosPage.MarcarComoEntregado | app/pedidos/page.tsx:73-135 | no selected order or a refused payment changes nothing; otherwise the writes above with the settled numbers, and only a full success closes and clears the dialog |
| Records.SetEstado | app/pedidos/page.tsx:88-91 | only the order with that id changes, and only its status |
| Records.SetDeuda | app/pedidos/page.tsx:114-117 | only the client with that id changes, and its debt is overwritten |
| Quote.PrecioPara | app/presupuesto/page.tsx:66 | a wholesale client ("mayorista") pays the wholesale price, every other list the retail price |
| Quote.Total | app/presupuesto/page.tsx:122-126 | without a client the total is the subtotal; a client's debt raises it and a credit lowers it |
| Quote.SubtotalNoNegativo | app/presupuesto/page.tsx:118-120 | lines that each cost nothing or more never add up to a negative subtotal |
| Quote.IndiceDe | app/presupuesto/page.tsx:65 | finds the first line with the product's id, or reports that none has it |
| Quote.AgregarLineaValida | app/presupuesto/page.tsx:58-93 | adding keeps product ids distinct and every line's subtotal equal to price × quantity |
| Quote.AgregarLineaSubtotal | app/presupuesto/page.tsx:65-92 | for a new product the subtotal grows by the client's list price × quantity; for a product already quoted it grows by that line's kept unit price × quantity, or drops that line's subtotal when its quantity falls to 0 or below |
| Quote.SubtotalEliminar | app/presupuesto/page.tsx:114-116 | removing line i lowers the subtotal by that line's subtotal; an index out of range changes nothing |
| Quote.CambiarCantidadValida | app/presupuesto/page.tsx:95-112 | a quantity update keeps ids distinct and lines consistent, and positive quantities stay positive |
| Quote.SubtotalReemplazar | app/presupuesto/page.tsx:103-109 | replacing one line changes the subtotal by exactly that line's difference |
| Quote.SubtotalConcat | app/presupuesto/page.tsx:118-120 | the subtotal (`reduce` over the lines) of a concatenation is the sum of the subtotals, so it is the sum of the line subtotals |
| Quote.QuoteTotalExamples | app/presupuesto/page.tsx:118-126 | lines 10 × 3 and 5 × 2 with a debt of 20 give subtotal 40 and total 60; no lines give subtotal 0, and a credit of 15 gives total −15 |
| Quote.BuscarCliente | app/presupuesto/page.tsx:268-271 | the selected client is one with that id, or none when no client has it |
| Quote.LineasDePedidoImporte | app/presupuesto/page.tsx:178-191 | the order lines inserted are worth quantity × unit price summed, which is the quote's subtotal; so the stored order total is those lines plus the client's debt |
| Quote.StockTrasPedido | app/presupuesto/page.tsx:197-205 | with distinct products, each listed product's stock becomes stock − quantity (negative allowed) and every other product is unchanged |
| Quote.StockEscrito | app/presupuesto/page.tsx:196-206 | no more stock writes commit than the order has lines |
| Quote.PresupuestoPage.CargarPresupuestosLocales | app/presupuesto/page.tsx:47-56 | the saved-quote list is the stored one |
| Quote.PresupuestoPage.SeleccionarCliente | app/presupuesto/page.tsx:268-271 | the selected client is the lookup's answer; nothing else changes |
| Quote.PresupuestoPage.AgregarProducto | app/presupuesto/page.tsx:58-93 | adding is refused exactly without a client, leaving the lines unchanged; otherwise the lines are the add-or-merge result |
| Quote.PresupuestoPage.ActualizarCantidad | app/presupuesto/page.tsx:95-112 | the lines become the quantity-update result: removed at 0 or below, otherwise only that line changes |
| Quote.PresupuestoPage.EliminarItem | app/presupuesto/page.tsx:114-116 | exactly position i is removed |
| Quote.PresupuestoPage.GuardarPresupuesto | app/presupuesto/page.tsx:128-161 | a quote is saved exactly with a client, a non-empty list and a storage write that does not throw; it is appended to the saved list and store and the form is cleared; otherwise nothing changes |
| Quote.PresupuestoPage.LimpiarFormulario | app/presupuesto/page.tsx:215-220 | client, lines, date and time are cleared; saved quotes kept |
| Quote.PresupuestoPage.CargarPresupuesto | app/presupuesto/page.tsx:222-233 | the form takes the saved quote's client and lines |
| Quote.PresupuestoPage.EliminarPresupuesto | app/presupuesto/page.tsx:235-244 | exactly the quotes with that id are dropped, the rest kept in order, and the store matches; when the storage write throws nothing changes |
| Quote.PresupuestoPage.DescontarStock | app/presupuesto/page.tsx:197-205 | the loop lowers the stock of the lines processed before any failure, in order |
| Quote.PresupuestoPage.EscribirPedido | app/presupuesto/page.tsx:171-206 | order insert, line insert and stock loop in order, each failure stopping the rest |
| Quote.PresupuestoPage.GuardarPedido | app/presupuesto/page.tsx:163-213 | without a client or lines nothing is written; otherwise the writes above, and the form is cleared only on full success |
| SalesReport.TransferenciaReporte | app/ventas/page.tsx:93-96 | a positive transfer becomes a multiple of 100 within 50 of its fee-stripped value; a non-positive one is kept |
| SalesReport.CalcularDeuda | app/ventas/page.tsx:91-101 | a sale without a total owes 0; otherwise debt + cash + rounded transfer = total, and with a transfer the cash-stripped remainder minus the debt is a multiple of 100 |
| SalesReport.Pagado | app/ventas/page.tsx:243-249 | the badge says paid exactly when the report's debt is below the settlement's 99 tolerance; a sale without a total always shows paid |
| SalesReport.ReportVersusSettlement | app/ventas/page.tsx:91-101 | the report's debt differs from the settlement's balance only by the rounding of the transfer, at most 50 |
| SalesReport.PagadoBoundaries | app/ventas/page.tsx:243-249 | any overpayment and a missing total show as paid; a debt of exactly 99 shows as owing although the settlement forgave it |
| SalesReport.SettledSaleShownAsOwing | app/ventas/page.tsx:91-101 | a sale the settlement closed with no debt is shown as owing in the report |
| SalesReport.TotalesAgregar | app/ventas/page.tsx:103-109 | one more sale adds its total to the sales, its cash and raw transfer to the collected amount, and the difference to the total debt |
| SalesReport.TotalDeudaPorVenta | app/ventas/page.tsx:91-109 | the total debt is the sum of the per-sale debts plus, per sale, the transfer's rounding adjustment (or, for a sale without a total, minus what it collected) |
| SalesReport.TotalDeudaSinTransferencias | app/ventas/page.tsx:104-106 | without transfers and with every total present and non-zero, the page's total debt is the sum of the per-sale debts |
| SalesReport.TotalsIgnoreTransferFee | app/ventas/page.tsx:105 | the collected total counts the raw transfer, so a sale paid fully by transfer shows 0 total debt though its own debt is not 0 |
| SalesReport.FiltrarVentas | app/ventas/page.tsx:82-89 | the reload is refused exactly when either date is empty; otherwise each bound of the range extends its chosen date (with the time of day appended) |
| ProductFilter.Rango | components/product-search.tsx:71-85 | the sort key is below 2 exactly for an exact code match, and even exactly when the name starts with the term |
| ProductFilter.AntesQueCompara | components/product-search.tsx:71-85 | exact code matches come first, then name-prefix matches, then name order |
| ProductFilter.AntesQueEsPreorden | components/product-search-with-quantity.tsx:80-92 | the relevance comparison is a total preorder, so the stable sort is well defined |
| ProductFilter.FiltrarProductosSpec | components/product-search.tsx:59-87 | at most 8 suggestions, each a product whose name, code or category contains the trimmed lower-cased term, sorted by relevance |
| ProductFilter.FiltrarProductosMejores | components/product-search-with-quantity.tsx:71-94 | a matching product that is left out ranks no better than every suggestion shown |
| ProductFilter.ConsultaLargaTrim | components/product-search.tsx:36-45 | the suggestion trigger holds exactly when the trimmed query has at least 2 characters |
| ProductFilter.Bajar | components/product-search.tsx:104 | ArrowDown moves one step but never past the last suggestion |
| ProductFilter.Subir | components/product-search.tsx:108 | ArrowUp moves one step but never below -1 |
| ProductSearch.EfectoCoherente | components/product-search.tsx:36-45 | the effect shows the filter's answer with index -1 for a long query, and an empty hidden list for a short one |
| ProductSearch.MostrarCoherente | components/product-search.tsx:98-121 | showing, hiding and moving the index keep the box coherent |
| ProductSearch.ProductSearchBox.AlCambiarConsulta | components/product-search.tsx:36-45 | the suggestions are recomputed from the query and the catalogue |
| ProductSearch.ProductSearchBox.SetQuery | components/product-search.tsx:151 | typing sets the query and re-runs the effect only when it changes |
| ProductSearch.ProductSearchBox.CargarProductos | components/product-search.tsx:47-57 | a new catalogue re-runs the effect |
| ProductSearch.ProductSearchBox.Enfocar | components/product-search.tsx:153-157 | focus shows the list again for a long query |
| ProductSearch.ProductSearchBox.Desenfocar | components/product-search.tsx:158-161 | blur hides the list |
| ProductSearch.ProductSearchBox.SeleccionarProducto | components/product-search.tsx:90-96 | the product is handed to the caller, then query, list and index are cleared |
| ProductSearch.ProductSearchBox.ManejarTeclado | components/product-search.tsx:98-121 | keys act only on a shown non-empty list; Enter selects only an in-range index; Escape hides and resets to -1 |
| ProductSearchQty.CantidadPedidaSpec | components/product-search-with-quantity.tsx:109-110 | a typed non-zero integer is taken as is, "0" and text without digits count as 1 |
| ProductSearchQty.EfectoCoherente | components/product-search-with-quantity.tsx:42-51 | the effect keeps the box coherent |
| ProductSearchQty.MostrarCoherente | components/product-search-with-quantity.tsx:128-151 | showing, hiding, clearing and moving the index keep the box coherent |
| ProductSearchQty.ProductSearchWithQuantity.AlCambiarConsulta | components/product-search-with-quantity.tsx:42-51 | the suggestions are recomputed from the query and the catalogue |
| ProductSearchQty.ProductSearchWithQuantity.SetQuery | components/product-search-with-quantity.tsx:199-211 | typing is ignored while the quantity field is open |
| ProductSearchQty.ProductSearchWithQuantity.SetCantidad | components/product-search-with-quantity.tsx:277 | only the quantity text changes |
| ProductSearchQty.ProductSearchWithQuantity.CargarProductos | components/product-search-with-quantity.tsx:61-69 | a new catalogue re-runs the effect |
| ProductSearchQty.ProductSearchWithQuantity.Enfocar | components/product-search-with-quantity.tsx:201-205 | focus shows the list again for a long query |
| ProductSearchQty.ProductSearchWithQuantity.Desenfocar | components/product-search-with-quantity.tsx:206-208 | blur hides the list |
| ProductSearchQty.ProductSearchWithQuantity.SeleccionarProducto | components/product-search-with-quantity.tsx:97-104 | the product is chosen, the quantity field opens and the query becomes its name, which re-runs the effect |
| ProductSearchQty.ProductSearchWithQuantity.AgregarProducto | components/product-search-with-quantity.tsx:106-126 | without a chosen product or with a negative quantity nothing happens; otherwise product and quantity go to the caller and query "", quantity "1", no choice, field closed, the list empty and hidden (the effect on the empty query), the index and catalogue kept |
| ProductSearchQty.ProductSearchWithQuantity.CancelarSeleccion | components/product-search-with-quantity.tsx:162-170 | query "", quantity "1", no choice and field closed, the list empty and hidden, the index kept, without calling the caller |
| ProductSearchQty.ProductSearchWithQuantity.ManejarTecladoBusqueda | components/product-search-with-quantity.tsx:128-151 | keys act only on a shown non-empty list with the quantity field closed; Enter chooses only an in-range index, and then the query is the product's name and the list, its visibility and the index are what the effect gives for that name; Escape hides and resets to -1 |
| ProductSearchQty.ProductSearchWithQuantity.ManejarTecladoCantidad | components/product-search-with-quantity.tsx:153-160 | Enter adds, Escape cancels, other keys do nothing |
| ProductsPage.FiltrarListaSpec | app/productos/page.tsx:46-64 | a product is listed iff it matches a non-blank search (case-insensitive, untrimmed, name or non-empty category) and the active category, in catalogue order |
| ProductsPage.SinFiltros | app/productos/page.tsx:50-61 | with no search and category empty or "todas" every product is listed |
| ProductsPage.FilterFilter | app/productos/page.tsx:47-61 | two filters in a row keep what both conditions keep |
| ProductsPage.CategoriasPresentes | app/productos/page.tsx:180-182 | exactly the non-blank categories some product has |
| ProductsPage.PrimerasApariciones | app/productos/page.tsx:183 | no repeats, same members |
| ProductsPage.ObtenerCategoriasSpec | app/productos/page.tsx:179-187 | the categories offered are sorted, without repeats, and exactly the non-blank categories of the products |
| ProductsPage.CategoriasCrecientes | app/productos/page.tsx:184 | the categories offered are strictly increasing |
| ProductsPage.CategoriaGuardada | app/productos/page.tsx:134 | a blank category is stored as null, any other trimmed |
| ProductsPage.Validar | app/productos/page.tsx:104-149 | name, then retail price > 0, then wholesale price > 0, first failure reported; the record has the name trimmed, the parsed prices, stock defaulting to 0 and the category trimmed or null |
| ProductsPage.EditarSinCambios | app/productos/page.tsx:94-149 | opening a tidy product for editing and saving unchanged writes back the same values |
| ProductsPage.StockIlegibleEsBajo | app/productos/page.tsx:112 | a stock text without digits is saved as 0, which shows the low-stock warning (line 415) |
| ProductsPage.ProductosPage.Filtrar | app/productos/page.tsx:46-64 | the filtered list is the filter of the current list, search and category |
| ProductsPage.ProductosPage.CargarProductos | app/productos/page.tsx:66-78 | the new list is filtered again |
| ProductsPage.ProductosPage.SetBusqueda | app/productos/page.tsx:46-64 | the filtered list follows the new search |
| ProductsPage.ProductosPage.SetCategoriaFiltro | app/productos/page.tsx:46-64 | the filtered list follows the new category |
| ProductsPage.ProductosPage.LimpiarFiltros | app/productos/page.tsx:189-192 | after clearing the filters the whole catalogue is listed |
| ProductsPage.ProductosPage.LimpiarFormulario | app/productos/page.tsx:80-87 | every form field empty and no product being edited |
| ProductsPage.ProductosPage.AbrirDialogoNuevo | app/productos/page.tsx:89-92 | an empty form in an open dialog |
| ProductsPage.ProductosPage.AbrirDialogoEditar | app/productos/page.tsx:94-102 | the form holds the product's values as text in an open dialog |
| ProductsPage.ProductosPage.Escribir | app/productos/page.tsx:124-154 | an update of the edited product's row keeping its code, or an insert of a new row; nothing else in the database changes |
| ProductsPage.ProductosPage.GuardarProducto | app/productos/page.tsx:104-162 | an invalid form or a failed write changes nothing; a saved product closes the dialog and clears the form |
| Register.ValidarRegistro | app/auth/register/page.tsx:40-56 | each message is reported exactly when its check is the first to fail, and none exactly when all pass |
| Register.AceptadoImplica | app/auth/register/page.tsx:40-58 | an accepted form has every field, a password typed twice, of at least 6 characters |
| Register.PrimerErrorGana | app/auth/register/page.tsx:40-56 | only the first failing check is reported |
| Register.RegisterPage.HandleSubmit | app/auth/register/page.tsx:31-65 | a failing check sets its message and calls nothing; otherwise sign-up is called once with name, e-mail and password, and `loading` ends false unless sign-up throws |
| UserMenu.Iniciales | components/user-menu.tsx:30-35 | at most two characters |
| UserMenu.InicialesSpec | components/user-menu.tsx:30-35 | the initials are the upper-cased first characters of the words, empty words contributing nothing, the first two kept |
| UserMenu.InicialesPorPalabras | components/user-menu.tsx:31-33 | first characters of the space-separated words, joined, are the characters that start a word |
| UserMenu.Render | components/user-menu.tsx:28-51 | something renders iff there is a user and a profile; the admin badge iff the role is "admin" |
| JsNumber.ParseIntOfNumberText | app/pedidos/page.tsx:68-76 | reading a number's text with `parseInt` gives its integer part |
| JsNumber.ParseIntOfIntToString | app/productos/page.tsx:99-112 | reading an integer's text with `parseInt` gives it back |
| JsText.TrimSpec | app/productos/page.tsx:105 | `trim` drops exactly the leading and trailing whitespace |
| Sorting.SortBySorted | components/product-search.tsx:71-85 | the sort's output is ordered and a permutation of its input |
| Sorting.SortByStable | components/product-search.tsx:71-85 | the sort is stable: the elements tied with any given one keep their input order |

## Left out

- Remote I/O: database calls and `lib/supabase.ts`, `lib/supabase-config.ts`. Writes are field updates of `Database`, and whether each call fails is a parameter.
- The list reloads after writes (`cargarPedidos`, `cargarProductos`, `cargarVentas`) are left out. So is the report's server-side date filter and its ordering by date; `SalesReport.FiltrarVentas` gives only the guard and the range bounds.
- Authentication, routing and `components/auth-guard.tsx`, the login page and its server actions are out. So is the menu's sign-out `loading` flag. They are calls into an auth provider.
- Markup, toasts, focus refs and the 200 ms blur delay. Blur is modelled as hiding the list at once.
- `resaltarTexto` (display only, relies on RegExp split).
- The clients page and `eliminarProducto` (a delete behind a confirm dialog, no computation).
- localStorage JSON encoding of the draft quotes, `Date.now()` ids and `toISOString` timestamps: the store is a sequence, ids and dates are parameters.
- IEEE doubles: the fee division and `Math.round` are exact real operations. `toFixed(2)` is out, and so is the display-only preview in the delivery dialog (app/pedidos/page.tsx:404-425).
- `JsNumber.NumberText` does not produce the exponent form of `toString` and cuts fractions at 17 digits. `parseFloat` does not read `Infinity`.
- Unicode: case mapping is ASCII only, and lengths count characters, not UTF-16 code units. `localeCompare` and `sort()` are modelled as code-unit order.
- `codigo` is an optional string, as the search boxes use it, not the number `lib/supabase.ts` declares.
- Concurrency between operators (last write wins) is out.
- ProductSearchQty.Coherente: weaker than the plain box's invariant. A long query may have an empty list, because choosing a product whose name already is the query clears the list and the effect does not run again.
- ProductSearchQty.ProductSearchWithQuantity.AgregarProducto: the reset runs in one step, and the 100 ms refocus of the search box is not modelled.

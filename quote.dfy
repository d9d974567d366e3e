/** The quote page (`app/presupuesto/page.tsx`): a customer, a list of
    product lines priced by the customer's price list, drafts kept in the
    browser's local storage, and the conversion of a quote into an order. */
module Quote {
  import opened Common
  import opened Records

  /** One line of the quote. The product is a snapshot taken when the line was added. */
  datatype Item = Item(producto: Producto, cantidad: int, precioUnitario: real, subtotal: real)

  /** A draft saved in local storage. */
  datatype PresupuestoLocal = PresupuestoLocal(
    id: string,
    cliente: Cliente,
    items: seq<Item>,
    subtotal: real,
    total: real,
    fechaCreacion: string)

  /** Wholesale customers pay the wholesale price; every other list pays retail. */
  function PrecioPara(c: Cliente, p: Producto): (r: real)
    ensures r == p.precioMayorista || r == p.precioMinorista
    ensures c.lista == "mayorista" ==> r == p.precioMayorista
    ensures c.lista != "mayorista" ==> r == p.precioMinorista
  {
    if c.lista == "mayorista" then p.precioMayorista else p.precioMinorista
  }

  /** `items.reduce((sum, item) => sum + item.subtotal, 0)`, folded from the left. */
  function Subtotal(items: seq<Item>): (r: real)
  {
    if items == [] then 0.0 else Subtotal(items[..|items| - 1]) + items[|items| - 1].subtotal
  }

  /** The quote total: the lines plus the customer's stored debt (none without a customer). */
  function Total(cliente: Option<Cliente>, items: seq<Item>): (r: real)
    ensures cliente.None? ==> r == Subtotal(items)
    ensures cliente.Some? && cliente.value.deuda >= 0.0 ==> r >= Subtotal(items)
    ensures cliente.Some? && cliente.value.deuda <= 0.0 ==> r <= Subtotal(items)
  {
    Subtotal(items) + (if cliente.Some? then cliente.value.deuda else 0.0)
  }

  /** What a quantity costs at a unit price. */
  function Importe(precio: real, cantidad: int): real
  {
    precio * cantidad as real
  }

  /** A line's subtotal is its unit price times its quantity. */
  predicate Consistente(it: Item)
  {
    it.subtotal == Importe(it.precioUnitario, it.cantidad)
  }

  /** Every line is consistent and no product appears on two lines. */
  predicate ItemsValidos(items: seq<Item>)
  {
    && (forall i :: 0 <= i < |items| ==> Consistente(items[i]))
    && (forall i, j :: 0 <= i < j < |items| ==> items[i].producto.id != items[j].producto.id)
  }

  predicate CantidadesPositivas(items: seq<Item>)
  {
    forall i :: 0 <= i < |items| ==> items[i].cantidad > 0
  }

  /** `items.find` on the product id, as an index: the first line for that product. */
  function IndiceDe(items: seq<Item>, id: int): (r: Option<nat>)
    ensures r.Some? ==> r.value < |items| && items[r.value].producto.id == id
    ensures r.Some? ==> forall j :: 0 <= j < r.value ==> items[j].producto.id != id
    ensures r.None? <==> forall j :: 0 <= j < |items| ==> items[j].producto.id != id
  {
    if items == [] then None
    else if items[0].producto.id == id then Some(0)
    else match IndiceDe(items[1..], id)
      case None => None
      case Some(k) => Some(k + 1)
  }

  /** `items.filter((_, i) => i !== index)`. */
  function EliminarEn(items: seq<Item>, index: int): seq<Item>
  {
    if 0 <= index < |items| then items[..index] + items[index + 1..] else items
  }

  /** The line with a new quantity, its subtotal recomputed from its own unit price. */
  function ConCantidad(it: Item, n: int): Item
  {
    it.(cantidad := n, subtotal := Importe(it.precioUnitario, n))
  }

  /** `actualizarCantidad`: a quantity of 0 or less removes the line, even without a
      customer; otherwise, with a customer, the line takes the quantity and its subtotal
      is recomputed from its own unit price. */
  function CambiarCantidad(items: seq<Item>, index: nat, n: int, hayCliente: bool): seq<Item>
    requires index < |items|
  {
    if n <= 0 then EliminarEn(items, index)
    else if !hayCliente then items
    else items[index := ConCantidad(items[index], n)]
  }

  /** `agregarProducto` for a selected customer: a product already quoted gets the extra
      quantity at the price it was first quoted at; a new one is appended at the
      customer's current price. */
  function AgregarLinea(items: seq<Item>, cliente: Cliente, producto: Producto, cantidad: int): seq<Item>
  {
    match IndiceDe(items, producto.id)
    case Some(i) => CambiarCantidad(items, i, items[i].cantidad + cantidad, true)
    case None =>
      var precio := PrecioPara(cliente, producto);
      items + [Item(producto, cantidad, precio, Importe(precio, cantidad))]
  }

  lemma {:induction false} SubtotalConcat(a: seq<Item>, b: seq<Item>)
    ensures Subtotal(a + b) == Subtotal(a) + Subtotal(b)
    decreases |b|
  {
    if b != [] {
      var b' := b[..|b| - 1];
      assert (a + b)[..|a + b| - 1] == a + b';
      SubtotalConcat(a, b');
    } else {
      assert a + b == a;
    }
  }

  /** Lines that each cost something (or nothing) never add up to a negative subtotal. */
  lemma {:induction false} SubtotalNoNegativo(items: seq<Item>)
    requires forall i :: 0 <= i < |items| ==> items[i].subtotal >= 0.0
    ensures Subtotal(items) >= 0.0
  {
    if items != [] {
      SubtotalNoNegativo(items[..|items| - 1]);
    }
  }

  lemma SubtotalSingle(x: Item)
    ensures Subtotal([x]) == x.subtotal
  {
    assert [x][..0] == [];
  }

  /** Removing a line takes exactly its subtotal off the quote. */
  lemma {:induction false} SubtotalEliminar(items: seq<Item>, index: int)
    ensures 0 <= index < |items| ==> Subtotal(EliminarEn(items, index)) == Subtotal(items) - items[index].subtotal
    ensures !(0 <= index < |items|) ==> EliminarEn(items, index) == items
  {
    if 0 <= index < |items| {
      assert items == items[..index] + [items[index]] + items[index + 1..];
      SubtotalConcat(items[..index] + [items[index]], items[index + 1..]);
      SubtotalConcat(items[..index], [items[index]]);
      SubtotalConcat(items[..index], items[index + 1..]);
      SubtotalSingle(items[index]);
    }
  }

  /** Replacing a line changes the quote by the difference of the two subtotals. */
  lemma {:induction false} SubtotalReemplazar(items: seq<Item>, index: nat, x: Item)
    requires index < |items|
    ensures Subtotal(items[index := x]) == Subtotal(items) - items[index].subtotal + x.subtotal
  {
    assert items == items[..index] + [items[index]] + items[index + 1..];
    assert items[index := x] == items[..index] + [x] + items[index + 1..];
    SubtotalConcat(items[..index] + [items[index]], items[index + 1..]);
    SubtotalConcat(items[..index], [items[index]]);
    SubtotalConcat(items[..index] + [x], items[index + 1..]);
    SubtotalConcat(items[..index], [x]);
    SubtotalSingle(items[index]);
    SubtotalSingle(x);
  }

  lemma ValidosEliminar(items: seq<Item>, index: int)
    requires ItemsValidos(items)
    ensures ItemsValidos(EliminarEn(items, index))
  {
    if 0 <= index < |items| {
      var r := EliminarEn(items, index);
      forall i | 0 <= i < |r|
        ensures r[i] == items[if i < index then i else i + 1]
      {
      }
    }
  }

  /** Changing a quantity keeps every line consistent and every product on one line. */
  lemma CambiarCantidadValida(items: seq<Item>, index: nat, n: int, hayCliente: bool)
    requires index < |items| && ItemsValidos(items)
    ensures ItemsValidos(CambiarCantidad(items, index, n, hayCliente))
    ensures CantidadesPositivas(items) ==> CantidadesPositivas(CambiarCantidad(items, index, n, hayCliente))
  {
    ValidosEliminar(items, index);
    if n <= 0 {
      var r := EliminarEn(items, index);
      forall i | 0 <= i < |r|
        ensures r[i] == items[if i < index then i else i + 1]
      {
      }
    }
  }

  /** Adding a product keeps a valid quote valid, with one line per product, and keeps
      quantities positive when a positive quantity is added. */
  lemma AgregarLineaValida(items: seq<Item>, cliente: Cliente, producto: Producto, cantidad: int)
    requires ItemsValidos(items)
    ensures ItemsValidos(AgregarLinea(items, cliente, producto, cantidad))
    ensures CantidadesPositivas(items) && cantidad > 0 ==> CantidadesPositivas(AgregarLinea(items, cliente, producto, cantidad))
  {
    var r := AgregarLinea(items, cliente, producto, cantidad);
    match IndiceDe(items, producto.id)
    case None =>
      assert forall j :: 0 <= j < |items| ==> r[j] == items[j];
    case Some(i) =>
      CambiarCantidadValida(items, i, items[i].cantidad + cantidad, true);
  }

  lemma Distribuye(p: real, c: int, q: int)
    ensures Importe(p, c + q) == Importe(p, c) + Importe(p, q)
  {
  }

  /** Raising a consistent line's quantity by `q` adds `q` at its unit price. */
  lemma SubtotalAumentar(items: seq<Item>, i: nat, q: int)
    requires i < |items| && Consistente(items[i])
    ensures Subtotal(items[i := ConCantidad(items[i], items[i].cantidad + q)])
      == Subtotal(items) + Importe(items[i].precioUnitario, q)
  {
    var it := items[i];
    SubtotalReemplazar(items, i, ConCantidad(it, it.cantidad + q));
    Distribuye(it.precioUnitario, it.cantidad, q);
  }

  /** Adding a product to a quote whose lines are consistent moves the subtotal by the
      added quantity at the line's unit price: the customer's current price for a new
      line, the price first quoted for a product already there; a line whose quantity
      falls to 0 or below is dropped with its subtotal. */
  lemma {:induction false} AgregarLineaSubtotal(items: seq<Item>, cliente: Cliente, producto: Producto, cantidad: int)
    requires forall k :: 0 <= k < |items| ==> Consistente(items[k])
    ensures var r := AgregarLinea(items, cliente, producto, cantidad);
      match IndiceDe(items, producto.id)
      case None =>
        Subtotal(r) == Subtotal(items) + Importe(PrecioPara(cliente, producto), cantidad)
      case Some(i) =>
        if items[i].cantidad + cantidad > 0
        then Subtotal(r) == Subtotal(items) + Importe(items[i].precioUnitario, cantidad)
        else Subtotal(r) == Subtotal(items) - items[i].subtotal
  {
    var indice := IndiceDe(items, producto.id);
    if indice.None? {
      AgregarNuevaSubtotal(items, cliente, producto, cantidad);
    } else if items[indice.value].cantidad + cantidad > 0 {
      AgregarExistenteSubtotal(items, indice.value, cliente, producto, cantidad);
    } else {
      AgregarQuitaSubtotal(items, indice.value, cliente, producto, cantidad);
    }
  }

  lemma AgregarNuevaSubtotal(items: seq<Item>, cliente: Cliente, producto: Producto, cantidad: int)
    requires IndiceDe(items, producto.id).None?
    ensures Subtotal(AgregarLinea(items, cliente, producto, cantidad))
      == Subtotal(items) + Importe(PrecioPara(cliente, producto), cantidad)
  {
    var precio := PrecioPara(cliente, producto);
    var x := Item(producto, cantidad, precio, Importe(precio, cantidad));
    SubtotalConcat(items, [x]);
    SubtotalSingle(x);
  }

  lemma AgregarExistenteSubtotal(items: seq<Item>, i: nat, cliente: Cliente, producto: Producto, cantidad: int)
    requires IndiceDe(items, producto.id) == Some(i) && Consistente(items[i])
    requires items[i].cantidad + cantidad > 0
    ensures Subtotal(AgregarLinea(items, cliente, producto, cantidad))
      == Subtotal(items) + Importe(items[i].precioUnitario, cantidad)
  {
    var n := items[i].cantidad + cantidad;
    assert AgregarLinea(items, cliente, producto, cantidad) == items[i := ConCantidad(items[i], n)];
    SubtotalAumentar(items, i, cantidad);
  }

  lemma AgregarQuitaSubtotal(items: seq<Item>, i: nat, cliente: Cliente, producto: Producto, cantidad: int)
    requires IndiceDe(items, producto.id) == Some(i)
    requires items[i].cantidad + cantidad <= 0
    ensures Subtotal(AgregarLinea(items, cliente, producto, cantidad)) == Subtotal(items) - items[i].subtotal
  {
    assert AgregarLinea(items, cliente, producto, cantidad) == EliminarEn(items, i);
    SubtotalEliminar(items, i);
  }

  /** The conversion of a quote into an order: lines 10 x 3 and 5 x 2 with a debt of 20
      make 40 and 60; no lines and a credit of 15 make 0 and -15. */
  lemma QuoteTotalExamples(p: Producto, c: Cliente)
    ensures var items := [Item(p, 3, 10.0, 30.0), Item(p, 2, 5.0, 10.0)];
      Subtotal(items) == 40.0 && Total(Some(c.(deuda := 20.0)), items) == 60.0
    ensures Subtotal([]) == 0.0 && Total(Some(c.(deuda := -15.0)), []) == -15.0
  {
    var items := [Item(p, 3, 10.0, 30.0), Item(p, 2, 5.0, 10.0)];
    assert items[..1] == [items[0]];
    SubtotalSingle(items[0]);
    assert Subtotal(items) == Subtotal(items[..1]) + 10.0;
  }

  /** `clientes.find((c) => c.id === value) || null`. */
  function BuscarCliente(clientes: seq<Cliente>, id: string): (r: Option<Cliente>)
    ensures r.Some? ==> r.value in clientes && r.value.id == id
    ensures r.None? <==> forall c :: c in clientes ==> c.id != id
  {
    if clientes == [] then None
    else if clientes[0].id == id then Some(clientes[0])
    else BuscarCliente(clientes[1..], id)
  }

  /** The lines of a new order, as inserted into `pedidos_item`. */
  function LineasDePedido(pedidoId: string, items: seq<Item>): (r: seq<PedidoItem>)
    ensures |r| == |items|
    ensures forall i :: 0 <= i < |items| ==>
      r[i] == PedidoItem(pedidoId, items[i].producto.id, items[i].cantidad, items[i].precioUnitario)
  {
    seq(|items|, i requires 0 <= i < |items| => PedidoItem(pedidoId, items[i].producto.id, items[i].cantidad, items[i].precioUnitario))
  }

  /** The stock writes of an order, one line after another: each product's stock becomes
      the stock seen when its line was added, minus the quantity. Nothing stops it going
      below 0. */
  /** The amount of a set of order lines: quantity times unit price, added up. */
  function ImporteLineas(lineas: seq<PedidoItem>): real
  {
    if lineas == [] then 0.0
    else
      var l := lineas[|lineas| - 1];
      ImporteLineas(lineas[..|lineas| - 1]) + Importe(l.precioUnitario, l.cantidad)
  }

  /** The order lines of consistent quote lines are worth the quote's subtotal, so the
      order's stored total is the lines' amount plus the customer's debt. */
  lemma {:induction false} LineasDePedidoImporte(pedidoId: string, items: seq<Item>, c: Cliente)
    requires forall i :: 0 <= i < |items| ==> Consistente(items[i])
    ensures ImporteLineas(LineasDePedido(pedidoId, items)) == Subtotal(items)
    ensures Total(Some(c), items) == ImporteLineas(LineasDePedido(pedidoId, items)) + c.deuda
  {
    if items != [] {
      var init := items[..|items| - 1];
      assert forall i :: 0 <= i < |init| ==> init[i] == items[i];
      LineasDePedidoImporte(pedidoId, init, c);
      var r := LineasDePedido(pedidoId, items);
      assert r[..|r| - 1] == LineasDePedido(pedidoId, init);
      assert Consistente(items[|items| - 1]);
    }
  }

  function AplicarStock(productos: map<int, Producto>, items: seq<Item>): map<int, Producto>
  {
    if items == [] then productos
    else
      var it := items[|items| - 1];
      SetStock(AplicarStock(productos, items[..|items| - 1]), it.producto.id, it.producto.stock - it.cantidad)
  }

  predicate SinLinea(items: seq<Item>, id: int)
  {
    forall i :: 0 <= i < |items| ==> items[i].producto.id != id
  }

  /** With one line per product, after the stock writes every quoted product holds its
      snapshot stock minus its quantity (whatever the table held before), and every other
      product is untouched. */
  lemma {:induction false} StockTrasPedido(productos: map<int, Producto>, items: seq<Item>)
    requires forall i, j :: 0 <= i < j < |items| ==> items[i].producto.id != items[j].producto.id
    ensures AplicarStock(productos, items).Keys == productos.Keys
    ensures forall i :: 0 <= i < |items| && items[i].producto.id in productos ==>
      AplicarStock(productos, items)[items[i].producto.id]
        == productos[items[i].producto.id].(stock := items[i].producto.stock - items[i].cantidad)
    ensures forall k :: k in productos && SinLinea(items, k) ==> AplicarStock(productos, items)[k] == productos[k]
  {
    if items != [] {
      var init := items[..|items| - 1];
      StockTrasPedido(productos, init);
      var last := items[|items| - 1];
      forall i | 0 <= i < |items| && items[i].producto.id in productos
        ensures AplicarStock(productos, items)[items[i].producto.id]
          == productos[items[i].producto.id].(stock := items[i].producto.stock - items[i].cantidad)
      {
        if i < |items| - 1 {
          assert init[i] == items[i];
        }
      }
      forall k | k in productos && SinLinea(items, k)
        ensures AplicarStock(productos, items)[k] == productos[k]
      {
        assert SinLinea(init, k) by {
          forall i | 0 <= i < |init| ensures init[i].producto.id != k {
            assert init[i] == items[i];
          }
        }
        assert last.producto.id != k;
      }
    }
  }

  /** The remote writes of an order, in the order they are issued. */
  datatype PasoPedido = InsertarPedido | InsertarLineas | ActualizarStock(linea: nat)

  /** How many stock writes commit for an order of `n` lines when `falla` is rejected. */
  function StockEscrito(falla: Option<PasoPedido>, n: nat): (k: nat)
    ensures k <= n
  {
    match falla
    case None => n
    case Some(InsertarPedido) => 0
    case Some(InsertarLineas) => 0
    case Some(ActualizarStock(j)) => if j < n then j else n
  }

  /** Every write of an order of `n` lines goes through: the rejected write, if any, is a
      stock write for a line the order does not have. */
  predicate Completo(falla: Option<PasoPedido>, n: nat)
  {
    falla.None? || (falla.value.ActualizarStock? && falla.value.linea >= n)
  }

  datatype ResultadoGuardar = FaltanDatos | Guardado | Fallo(paso: PasoPedido)

  /** The quote page over the database and the browser's local storage (`almacen`). */
  class PresupuestoPage {
    var clienteSeleccionado: Option<Cliente>
    var items: seq<Item>
    var fechaEntrega: string
    var horarioEntrega: string
    var presupuestosGuardados: seq<PresupuestoLocal>
    var almacen: seq<PresupuestoLocal>
    const db: Database

    /** The page's drafts are the ones in storage. */
    predicate Sincronizado()
      reads this
    {
      presupuestosGuardados == almacen
    }

    constructor (db: Database, almacen: seq<PresupuestoLocal>)
      ensures this.db == db && this.almacen == almacen
      ensures clienteSeleccionado == None && items == [] && fechaEntrega == "" && horarioEntrega == ""
      ensures presupuestosGuardados == []
    {
      this.db := db;
      this.almacen := almacen;
      clienteSeleccionado := None;
      items := [];
      fechaEntrega := "";
      horarioEntrega := "";
      presupuestosGuardados := [];
    }

    /** The mount effect: the drafts are read from storage. */
    method CargarPresupuestosLocales()
      modifies this
      ensures presupuestosGuardados == almacen && Sincronizado()
      ensures almacen == old(almacen) && items == old(items) && clienteSeleccionado == old(clienteSeleccionado)
      ensures fechaEntrega == old(fechaEntrega) && horarioEntrega == old(horarioEntrega)
    {
      presupuestosGuardados := almacen;
    }

    /** Choosing a customer from the list; lines already quoted keep their prices. */
    method SeleccionarCliente(clientes: seq<Cliente>, id: string)
      modifies this
      ensures clienteSeleccionado == BuscarCliente(clientes, id)
      ensures items == old(items) && presupuestosGuardados == old(presupuestosGuardados) && almacen == old(almacen)
      ensures fechaEntrega == old(fechaEntrega) && horarioEntrega == old(horarioEntrega)
    {
      clienteSeleccionado := BuscarCliente(clientes, id);
    }

    /** Adds `cantidad` of a product; refused while no customer is selected. */
    method AgregarProducto(producto: Producto, cantidad: int) returns (agregado: bool)
      modifies this
      ensures agregado <==> old(clienteSeleccionado).Some?
      ensures agregado ==> items == AgregarLinea(old(items), old(clienteSeleccionado).value, producto, cantidad)
      ensures !agregado ==> items == old(items)
      ensures clienteSeleccionado == old(clienteSeleccionado) && presupuestosGuardados == old(presupuestosGuardados)
      ensures almacen == old(almacen) && fechaEntrega == old(fechaEntrega) && horarioEntrega == old(horarioEntrega)
    {
      if clienteSeleccionado.None? {
        return false;
      }
      items := AgregarLinea(items, clienteSeleccionado.value, producto, cantidad);
      agregado := true;
    }

    method ActualizarCantidad(index: nat, nuevaCantidad: int)
      requires index < |items|
      modifies this
      ensures items == CambiarCantidad(old(items), index, nuevaCantidad, old(clienteSeleccionado).Some?)
      ensures clienteSeleccionado == old(clienteSeleccionado) && presupuestosGuardados == old(presupuestosGuardados)
      ensures almacen == old(almacen) && fechaEntrega == old(fechaEntrega) && horarioEntrega == old(horarioEntrega)
    {
      if nuevaCantidad <= 0 {
        EliminarItem(index);
        assert items == CambiarCantidad(old(items), index, nuevaCantidad, old(clienteSeleccionado).Some?);
        return;
      }
      if clienteSeleccionado.None? {
        return;
      }
      items := items[index := ConCantidad(items[index], nuevaCantidad)];
    }

    method EliminarItem(index: int)
      modifies this
      ensures items == EliminarEn(old(items), index)
      ensures clienteSeleccionado == old(clienteSeleccionado) && presupuestosGuardados == old(presupuestosGuardados)
      ensures almacen == old(almacen) && fechaEntrega == old(fechaEntrega) && horarioEntrega == old(horarioEntrega)
    {
      items := EliminarEn(items, index);
    }

    /** Clears the form; the saved drafts stay. */
    method LimpiarFormulario()
      modifies this
      ensures clienteSeleccionado == None && items == [] && fechaEntrega == "" && horarioEntrega == ""
      ensures presupuestosGuardados == old(presupuestosGuardados) && almacen == old(almacen)
    {
      clienteSeleccionado := None;
      items := [];
      fechaEntrega := "";
      horarioEntrega := "";
    }

    /** Saves the quote as a draft appended to storage (`id` and `fecha` are clock
        readings) and clears the form; refused without a customer or without lines.
        `almacenOk` says whether reading and writing storage succeed; when they throw,
        nothing changes. */
    method GuardarPresupuesto(id: string, fecha: string, almacenOk: bool) returns (guardado: bool)
      modifies this
      ensures guardado <==> old(clienteSeleccionado).Some? && old(items) != [] && almacenOk
      ensures !guardado ==> unchanged(this)
      ensures guardado ==>
        var d := PresupuestoLocal(id, old(clienteSeleccionado).value, old(items), Subtotal(old(items)),
                                  Total(old(clienteSeleccionado), old(items)), fecha);
        && almacen == old(almacen) + [d]
        && presupuestosGuardados == almacen
        && clienteSeleccionado == None && items == [] && fechaEntrega == "" && horarioEntrega == ""
    {
      if clienteSeleccionado.None? || items == [] || !almacenOk {
        return false;
      }
      var d := PresupuestoLocal(id, clienteSeleccionado.value, items, Subtotal(items),
                                Total(clienteSeleccionado, items), fecha);
      almacen := almacen + [d];
      presupuestosGuardados := almacen;
      LimpiarFormulario();
      guardado := true;
    }

    /** Puts a draft's customer and lines back into the form; the delivery fields stay. */
    method CargarPresupuesto(d: PresupuestoLocal)
      modifies this
      ensures clienteSeleccionado == Some(d.cliente) && items == d.items
      ensures presupuestosGuardados == old(presupuestosGuardados) && almacen == old(almacen)
      ensures fechaEntrega == old(fechaEntrega) && horarioEntrega == old(horarioEntrega)
    {
      clienteSeleccionado := Some(d.cliente);
      items := d.items;
    }

    /** Drops every draft with that id from the page's list and writes the list to storage;
        when the write throws (`!almacenOk`), nothing changes. */
    method EliminarPresupuesto(id: string, almacenOk: bool)
      modifies this
      ensures !almacenOk ==> unchanged(this)
      ensures almacenOk ==>
        && presupuestosGuardados == Filter(old(presupuestosGuardados), (d: PresupuestoLocal) => d.id != id)
        && almacen == presupuestosGuardados
      ensures clienteSeleccionado == old(clienteSeleccionado) && items == old(items)
      ensures fechaEntrega == old(fechaEntrega) && horarioEntrega == old(horarioEntrega)
    {
      if !almacenOk {
        return;
      }
      presupuestosGuardados := Filter(presupuestosGuardados, (d: PresupuestoLocal) => d.id != id);
      almacen := presupuestosGuardados;
    }

    /** The stock loop: one write per line, in order, stopping at the rejected one. */
    method DescontarStock(lineas: seq<Item>, falla: Option<PasoPedido>) returns (hechos: nat)
      requires falla.None? || falla.value.ActualizarStock?
      modifies db
      ensures hechos == StockEscrito(falla, |lineas|)
      ensures db.productos == AplicarStock(old(db.productos), lineas[..hechos])
      ensures db.pedidos == old(db.pedidos) && db.pedidoItems == old(db.pedidoItems)
      ensures db.ventas == old(db.ventas) && db.clientes == old(db.clientes)
    {
      var i := 0;
      while i < |lineas|
        invariant 0 <= i <= |lineas|
        invariant db.productos == AplicarStock(old(db.productos), lineas[..i])
        invariant forall j :: 0 <= j < i ==> falla != Some(ActualizarStock(j))
        invariant db.pedidos == old(db.pedidos) && db.pedidoItems == old(db.pedidoItems)
        invariant db.ventas == old(db.ventas) && db.clientes == old(db.clientes)
      {
        if falla == Some(ActualizarStock(i)) {
          return i;
        }
        var it := lineas[i];
        assert lineas[..i + 1][..i] == lineas[..i];
        db.productos := SetStock(db.productos, it.producto.id, it.producto.stock - it.cantidad);
        i := i + 1;
      }
      assert lineas[..i] == lineas;
      hechos := i;
    }

    /** The writes of a new order: the order row, its lines, then the stock writes. */
    method EscribirPedido(pedido: Pedido, lineas: seq<Item>, falla: Option<PasoPedido>) returns (res: ResultadoGuardar)
      modifies db
      ensures db.pedidos == if falla == Some(InsertarPedido) then old(db.pedidos) else old(db.pedidos)[pedido.id := pedido]
      ensures db.pedidoItems == old(db.pedidoItems)
        + (if falla == Some(InsertarPedido) || falla == Some(InsertarLineas) then [] else LineasDePedido(pedido.id, lineas))
      ensures db.productos == AplicarStock(old(db.productos), lineas[..StockEscrito(falla, |lineas|)])
      ensures db.ventas == old(db.ventas) && db.clientes == old(db.clientes)
      ensures res == if Completo(falla, |lineas|) then Guardado else Fallo(falla.value)
    {
      if falla == Some(InsertarPedido) {
        return Fallo(InsertarPedido);
      }
      db.pedidos := db.pedidos[pedido.id := pedido];
      if falla == Some(InsertarLineas) {
        return Fallo(InsertarLineas);
      }
      db.pedidoItems := db.pedidoItems + LineasDePedido(pedido.id, lineas);
      var hechos := DescontarStock(lineas, falla);
      if hechos < |lineas| {
        return Fallo(falla.value);
      }
      res := Guardado;
    }

    /** Turns the quote into a pending order. `nuevoId` is the id the database gives the
        new row; `falla` is the first write it rejects, if any. The form is cleared only
        when every write went through; earlier writes are not undone. */
    method GuardarPedido(nuevoId: string, falla: Option<PasoPedido>) returns (res: ResultadoGuardar)
      modifies this, db
      ensures old(clienteSeleccionado).None? || old(items) == [] ==> res == FaltanDatos && unchanged(this, db)
      ensures old(clienteSeleccionado).Some? && old(items) != [] ==>
        var pedido := Pedido(nuevoId, old(clienteSeleccionado).value.id,
                             if old(fechaEntrega) == "" then None else Some(old(fechaEntrega)),
                             if old(horarioEntrega) == "" then None else Some(old(horarioEntrega)),
                             Pendiente, Total(old(clienteSeleccionado), old(items)));
        && db.pedidos == (if falla == Some(InsertarPedido) then old(db.pedidos) else old(db.pedidos)[nuevoId := pedido])
        && db.pedidoItems == old(db.pedidoItems)
             + (if falla == Some(InsertarPedido) || falla == Some(InsertarLineas) then [] else LineasDePedido(nuevoId, old(items)))
        && db.productos == AplicarStock(old(db.productos), old(items)[..StockEscrito(falla, |old(items)|)])
        && (res == Guardado <==> Completo(falla, |old(items)|))
        && (res == Guardado ==> clienteSeleccionado == None && items == [] && fechaEntrega == "" && horarioEntrega == "")
        && (res != Guardado ==> res == Fallo(falla.value) && unchanged(this))
      ensures db.ventas == old(db.ventas) && db.clientes == old(db.clientes)
      ensures presupuestosGuardados == old(presupuestosGuardados) && almacen == old(almacen)
    {
      if clienteSeleccionado.None? || items == [] {
        return FaltanDatos;
      }
      var pedido := Pedido(nuevoId, clienteSeleccionado.value.id,
                           if fechaEntrega == "" then None else Some(fechaEntrega),
                           if horarioEntrega == "" then None else Some(horarioEntrega),
                           Pendiente, Total(clienteSeleccionado, items));
      res := EscribirPedido(pedido, items, falla);
      if res == Guardado {
        LimpiarFormulario();
      }
    }
  }
}

/** The table rows the pages read and write (the record types of
    `lib/supabase.ts`), and the hosted database seen as tables that the
    pages update one call at a time. */
module Records {
  import opened Common

  /** A `clientes` row: the fields the core reads. `deuda` is the single stored balance. */
  datatype Cliente = Cliente(id: string, nombre: string, deuda: real, lista: string)

  /** A `productos` row. `codigo` is held as text, as the search components use it. */
  datatype Producto = Producto(
    id: int,
    nombre: string,
    precioMinorista: real,
    precioMayorista: real,
    stock: int,
    categoria: Option<string>,
    codigo: Option<string>)

  datatype EstadoPedido = Pendiente | Entregado | Cancelado

  /** A `pedidos` row; an empty delivery date or time is stored as null. */
  datatype Pedido = Pedido(
    id: string,
    clienteId: string,
    fechaEntrega: Option<string>,
    horarioEntrega: Option<string>,
    estado: EstadoPedido,
    total: real)

  /** A `pedidos_item` row. */
  datatype PedidoItem = PedidoItem(pedidoId: string, productoId: int, cantidad: int, precioUnitario: real)

  /** A `ventas` row. */
  datatype Venta = Venta(clienteId: string, fecha: string, montoEfectivo: real, montoTb: real, total: real)

  /** `update({ estado }).eq("id", id)`: changes the row with that id, if there is one. */
  function SetEstado(pedidos: map<string, Pedido>, id: string, estado: EstadoPedido): (r: map<string, Pedido>)
    ensures r.Keys == pedidos.Keys
    ensures id in pedidos ==> r[id] == pedidos[id].(estado := estado)
    ensures forall k :: k in pedidos && k != id ==> r[k] == pedidos[k]
  {
    if id in pedidos then pedidos[id := pedidos[id].(estado := estado)] else pedidos
  }

  /** `update({ deuda }).eq("id", id)`: the stored debt is replaced, not added to. */
  function SetDeuda(clientes: map<string, Cliente>, id: string, deuda: real): (r: map<string, Cliente>)
    ensures r.Keys == clientes.Keys
    ensures id in clientes ==> r[id] == clientes[id].(deuda := deuda)
    ensures forall k :: k in clientes && k != id ==> r[k] == clientes[k]
  {
    if id in clientes then clientes[id := clientes[id].(deuda := deuda)] else clientes
  }

  /** `update({ stock }).eq("id", id)`. */
  function SetStock(productos: map<int, Producto>, id: int, stock: int): (r: map<int, Producto>)
    ensures r.Keys == productos.Keys
    ensures id in productos ==> r[id] == productos[id].(stock := stock)
    ensures forall k :: k in productos && k != id ==> r[k] == productos[k]
  {
    if id in productos then productos[id := productos[id].(stock := stock)] else productos
  }

  /** The hosted database: each field is one table. */
  class Database {
    var pedidos: map<string, Pedido>
    var pedidoItems: seq<PedidoItem>
    var ventas: seq<Venta>
    var clientes: map<string, Cliente>
    var productos: map<int, Producto>

    constructor (pedidos: map<string, Pedido>, clientes: map<string, Cliente>, productos: map<int, Producto>)
      ensures this.pedidos == pedidos && this.clientes == clientes && this.productos == productos
      ensures pedidoItems == [] && ventas == []
    {
      this.pedidos := pedidos;
      this.clientes := clientes;
      this.productos := productos;
      pedidoItems := [];
      ventas := [];
    }
  }
}

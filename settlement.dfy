/** Delivery of a pending order (`app/pedidos/page.tsx`): the payment
    dialog, the settlement arithmetic, and the three writes that follow. */
module Settlement {
  import opened Common
  import opened JsNumber
  import opened Records

  /** A bank transfer arrives with a 3% surcharge on top of what the merchant keeps. */
  const FeeDivisor: real := 1.03

  /** Mismatches up to this many currency units either way count as fully paid. */
  const Tolerance: real := 99.0

  /** What the merchant keeps of a transfer of `tb` once the fee is removed. */
  function TransferValue(tb: int): (v: real)
    ensures v * FeeDivisor == tb as real
    ensures v == 0.0 <==> tb == 0
    ensures tb > 0 ==> 0.0 < v < tb as real
    ensures tb < 0 ==> tb as real < v < 0.0
  {
    tb as real / FeeDivisor
  }

  /** The debt stored after a settlement whose balance is `diferencia`: nothing inside the
      tolerance band, otherwise the whole balance (negative for an overpayment). */
  function NuevaDeuda(diferencia: real): (d: real)
    ensures d == 0.0 <==> -Tolerance <= diferencia <= Tolerance
    ensures d != 0.0 ==> d == diferencia
    ensures -Tolerance <= diferencia - d <= Tolerance
  {
    var nuevaDeuda := 0.0;
    if diferencia > Tolerance || diferencia < -Tolerance then nuevaDeuda + diferencia else nuevaDeuda
  }

  /** The numbers of one settlement. */
  datatype Liquidacion = Liquidacion(efectivo: int, tb: int, totalPagado: real, diferencia: real, nuevaDeuda: real)

  datatype ErrorLiquidacion = MontoInvalido

  /** An amount typed in the dialog: `parseInt(text) || 0`. */
  function LeerMonto(texto: string): (r: int)
    ensures r == 0 <==> ParseInt(texto).None? || ParseInt(texto) == Some(0)
    ensures r != 0 ==> ParseInt(texto) == Some(r)
  {
    ParseIntOr(texto, 0)
  }

  /** The arithmetic of `marcarComoEntregado` on the parsed amounts: strip the fee from
      the transfer, refuse a payment that is not positive, and derive the balance and
      the new debt. */
  function Liquidar(total: real, efectivo: int, tb: int): (r: Result<Liquidacion, ErrorLiquidacion>)
    ensures r.Failure? <==> efectivo as real + TransferValue(tb) <= 0.0
    ensures r.Success? ==>
      && r.value.efectivo == efectivo && r.value.tb == tb
      && r.value.totalPagado * FeeDivisor == efectivo as real * FeeDivisor + tb as real
      && r.value.totalPagado + r.value.diferencia == total
      && (r.value.nuevaDeuda == 0.0 <==> -Tolerance <= r.value.diferencia <= Tolerance)
      && (r.value.nuevaDeuda != 0.0 ==> r.value.nuevaDeuda == r.value.diferencia)
  {
    var totalPagado := efectivo as real + TransferValue(tb);
    if totalPagado <= 0.0 then Failure(MontoInvalido)
    else
      var diferencia := total - totalPagado;
      Success(Liquidacion(efectivo, tb, totalPagado, diferencia, NuevaDeuda(diferencia)))
  }

  /** The settlement of order `p` from the dialog's texts. */
  function LiquidarDialogo(p: Pedido, montoEfectivo: string, montoTb: string): Result<Liquidacion, ErrorLiquidacion>
  {
    Liquidar(p.total, LeerMonto(montoEfectivo), LeerMonto(montoTb))
  }

  /** Worked cases of the tolerance policy: a shortfall of 50 is forgiven, one of 200 is
      stored, an overpayment of 200 is stored as credit, and a transfer of 1030 is worth
      1000 after the fee. */
  lemma SettlementExamples()
    ensures Liquidar(1000.0, 950, 0) == Success(Liquidacion(950, 0, 950.0, 50.0, 0.0))
    ensures Liquidar(1000.0, 800, 0) == Success(Liquidacion(800, 0, 800.0, 200.0, 200.0))
    ensures Liquidar(500.0, 700, 0) == Success(Liquidacion(700, 0, 700.0, -200.0, -200.0))
    ensures Liquidar(1030.0, 0, 1030) == Success(Liquidacion(0, 1030, 1000.0, 30.0, 0.0))
    ensures Liquidar(1000.0, 0, 0) == Failure(MontoInvalido)
  {
  }

  /** Accepting the prefilled dialog (cash = the order total as text, transfer = "0"):
      an order of at least 1 settles with no debt, and a whole-number total settles
      exactly; a smaller total reads as a payment of 0 and is refused. */
  lemma {:induction false} PrefilledDialogSettles(total: real)
    ensures var r := Liquidar(total, LeerMonto(NumberText(total)), LeerMonto("0"));
      && (total >= 1.0 ==> r.Success? && r.value.nuevaDeuda == 0.0)
      && (total >= 1.0 && total == total.Floor as real ==> r.Success? && r.value.diferencia == 0.0)
      && (total < 1.0 ==> r.Failure?)
  {
    ParseIntOfNumberText(total);
    ParseIntOfIntToString(0);
    assert IntToString(0) == "0";
    assert LeerMonto("0") == 0;
    assert LeerMonto(NumberText(total)) == Trunc(total);
  }

  /** The three remote writes of a delivery, in the order they are issued. */
  datatype Paso = ActualizarPedido | RegistrarVenta | ActualizarDeuda

  function Orden(p: Paso): nat
  {
    match p
    case ActualizarPedido => 0
    case RegistrarVenta => 1
    case ActualizarDeuda => 2
  }

  /** Write `p` is committed when the first failing write, if any, comes after it. */
  predicate Ejecutado(p: Paso, falla: Option<Paso>)
  {
    falla.None? || Orden(p) < Orden(falla.value)
  }

  /** The success notice: it speaks of the balance, not of the debt that was stored. */
  datatype Aviso = DeudaPendiente(monto: real) | SobrepagoAplicado(monto: real) | PagoCompleto

  function AvisoEntrega(diferencia: real): Aviso
  {
    if diferencia > 0.0 then DeudaPendiente(diferencia)
    else if diferencia < 0.0 then SobrepagoAplicado(-diferencia)
    else PagoCompleto
  }

  /** Inside the tolerance band the notice still reports the balance as owed (or overpaid)
      while the stored debt becomes 0. */
  lemma {:induction false} NoticeWithinTolerance(diferencia: real)
    requires diferencia != 0.0 && -Tolerance <= diferencia <= Tolerance
    ensures NuevaDeuda(diferencia) == 0.0
    ensures AvisoEntrega(diferencia) != PagoCompleto
  {
  }

  /** The dialog's amounts make a payment that is refused. */
  predicate Rechazado(p: Pedido, montoEfectivo: string, montoTb: string)
  {
    LiquidarDialogo(p, montoEfectivo, montoTb).Failure?
  }

  datatype ResultadoEntrega =
    | SinSeleccion
    | PagoRechazado
    | FalloEscritura(paso: Paso)
    | Entregado(aviso: Aviso)

  /** The sale recorded for a delivery: the raw amounts as parsed and the order total. */
  function VentaDe(p: Pedido, l: Liquidacion, fecha: string): Venta
  {
    Venta(p.clienteId, fecha, l.efectivo as real, l.tb as real, p.total)
  }

  /** The pending-orders page: the delivery dialog's state, over the database. */
  class PedidosPage {
    var pedidoSeleccionado: Option<Pedido>
    var montoEfectivo: string
    var montoTb: string
    var dialogAbierto: bool
    const db: Database

    constructor (db: Database)
      ensures this.db == db
      ensures pedidoSeleccionado == None && montoEfectivo == "" && montoTb == "" && !dialogAbierto
    {
      this.db := db;
      pedidoSeleccionado := None;
      montoEfectivo := "";
      montoTb := "";
      dialogAbierto := false;
    }

    /** Opens the dialog with cash prefilled to the order total and no transfer. */
    method AbrirDialogoEntrega(p: Pedido)
      modifies this
      ensures pedidoSeleccionado == Some(p) && dialogAbierto
      ensures montoEfectivo == NumberText(p.total) && montoTb == "0"
    {
      pedidoSeleccionado := Some(p);
      montoEfectivo := NumberText(p.total);
      montoTb := "0";
      dialogAbierto := true;
    }

    /** The writes of a delivery, in order, stopping at the first one rejected. */
    method Escribir(p: Pedido, l: Liquidacion, fecha: string, falla: Option<Paso>) returns (res: ResultadoEntrega)
      modifies db
      ensures db.pedidoItems == old(db.pedidoItems) && db.productos == old(db.productos)
      ensures db.pedidos == (if Ejecutado(ActualizarPedido, falla) then SetEstado(old(db.pedidos), p.id, EstadoPedido.Entregado) else old(db.pedidos))
      ensures db.ventas == old(db.ventas) + (if Ejecutado(RegistrarVenta, falla) then [VentaDe(p, l, fecha)] else [])
      ensures db.clientes == (if Ejecutado(ActualizarDeuda, falla) then SetDeuda(old(db.clientes), p.clienteId, l.nuevaDeuda) else old(db.clientes))
      ensures falla.Some? ==> res == FalloEscritura(falla.value)
      ensures falla.None? ==> res == ResultadoEntrega.Entregado(AvisoEntrega(l.diferencia))
    {
      if falla == Some(ActualizarPedido) {
        return FalloEscritura(ActualizarPedido);
      }
      db.pedidos := SetEstado(db.pedidos, p.id, EstadoPedido.Entregado);

      if falla == Some(RegistrarVenta) {
        return FalloEscritura(RegistrarVenta);
      }
      db.ventas := db.ventas + [VentaDe(p, l, fecha)];

      if falla == Some(ActualizarDeuda) {
        return FalloEscritura(ActualizarDeuda);
      }
      db.clientes := SetDeuda(db.clientes, p.clienteId, l.nuevaDeuda);
      res := ResultadoEntrega.Entregado(AvisoEntrega(l.diferencia));
    }

    /** Settles the selected order. `fecha` is the clock reading; `falla` is the first
        write the database rejects, if any. A refused payment writes nothing; a failed
        write skips the later ones and keeps the earlier ones, and leaves the dialog open. */
    method MarcarComoEntregado(fecha: string, falla: Option<Paso>) returns (res: ResultadoEntrega)
      modifies this, db
      ensures db.pedidoItems == old(db.pedidoItems) && db.productos == old(db.productos)
      ensures old(pedidoSeleccionado).None? ==> res == SinSeleccion && unchanged(this, db)
      ensures old(pedidoSeleccionado).Some? && Rechazado(old(pedidoSeleccionado).value, old(montoEfectivo), old(montoTb)) ==>
        res == PagoRechazado && unchanged(this, db)
      ensures old(pedidoSeleccionado).Some? && !Rechazado(old(pedidoSeleccionado).value, old(montoEfectivo), old(montoTb)) ==>
        var p := old(pedidoSeleccionado).value;
        var l := LiquidarDialogo(p, old(montoEfectivo), old(montoTb)).value;
        && db.pedidos == (if Ejecutado(ActualizarPedido, falla) then SetEstado(old(db.pedidos), p.id, EstadoPedido.Entregado) else old(db.pedidos))
        && db.ventas == old(db.ventas) + (if Ejecutado(RegistrarVenta, falla) then [VentaDe(p, l, fecha)] else [])
        && db.clientes == (if Ejecutado(ActualizarDeuda, falla) then SetDeuda(old(db.clientes), p.clienteId, l.nuevaDeuda) else old(db.clientes))
      ensures old(pedidoSeleccionado).Some? && !Rechazado(old(pedidoSeleccionado).value, old(montoEfectivo), old(montoTb)) && falla.Some? ==>
        res == FalloEscritura(falla.value) && unchanged(this)
      ensures old(pedidoSeleccionado).Some? && !Rechazado(old(pedidoSeleccionado).value, old(montoEfectivo), old(montoTb)) && falla.None? ==>
        && res == ResultadoEntrega.Entregado(AvisoEntrega(LiquidarDialogo(old(pedidoSeleccionado).value, old(montoEfectivo), old(montoTb)).value.diferencia))
        && pedidoSeleccionado == None && montoEfectivo == "" && montoTb == "" && !dialogAbierto
    {
      if pedidoSeleccionado.None? {
        return SinSeleccion;
      }
      var p := pedidoSeleccionado.value;
      var liq := LiquidarDialogo(p, montoEfectivo, montoTb);
      if liq.Failure? {
        return PagoRechazado;
      }
      res := Escribir(p, liq.value, fecha, falla);
      if falla.Some? {
        return;
      }
      dialogAbierto := false;
      pedidoSeleccionado := None;
      montoEfectivo := "";
      montoTb := "";
    }
  }
}

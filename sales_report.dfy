/** The sales report (`app/ventas/page.tsx`): the per-sale debt shown in the
    table, the "Pagado" badge, the totals above the table, and the date-range
    check before a reload. */
module SalesReport {
  import opened Common
  import opened JsNumber
  import Settlement

  /** A sale row joined with its customer, as the page holds it; amounts may be absent. */
  datatype VentaDetalle = VentaDetalle(
    id: string,
    fechaVenta: string,
    clienteNombre: string,
    clienteTipo: string,
    clienteLista: Option<string>,
    montoEfectivo: Option<real>,
    montoTb: Option<real>,
    total: Option<real>)

  /** `x || 0` on an optional amount. */
  function OrZero(x: Option<real>): real
  {
    if x.Some? then x.value else 0.0
  }

  predicate MultiploDeCien(r: real)
  {
    r == (r / 100.0).Floor as real * 100.0
  }

  /** The report's view of a transfer: a positive one loses the 3% fee and is rounded to
      the nearest multiple of 100; anything else is taken as it is. */
  function TransferenciaReporte(tb: real): (r: real)
    ensures tb <= 0.0 ==> r == tb
    ensures tb > 0.0 ==> MultiploDeCien(r)
    ensures tb > 0.0 ==> -50.0 <= r - tb / Settlement.FeeDivisor <= 50.0
  {
    if tb > 0.0 then
      var k := Round(tb / Settlement.FeeDivisor / 100.0);
      assert (k as real * 100.0) / 100.0 == k as real;
      k as real * 100.0
    else tb
  }

  /** `calcularDeuda`: the order total less the cash and the report's view of the
      transfer; a sale with no total (or a total of 0) owes nothing. */
  function CalcularDeuda(v: VentaDetalle): (d: real)
    ensures OrZero(v.total) == 0.0 ==> d == 0.0
    ensures OrZero(v.total) != 0.0 ==>
      d + OrZero(v.montoEfectivo) + TransferenciaReporte(OrZero(v.montoTb)) == OrZero(v.total)
    ensures OrZero(v.total) != 0.0 && OrZero(v.montoTb) > 0.0 ==>
      MultiploDeCien(OrZero(v.total) - OrZero(v.montoEfectivo) - d)
  {
    var pagado := OrZero(v.montoEfectivo) + TransferenciaReporte(OrZero(v.montoTb));
    if OrZero(v.total) != 0.0 then OrZero(v.total) - pagado else 0.0
  }

  /** The status badge: "Pagado" when the debt is under 99, otherwise the debt. */
  function Pagado(v: VentaDetalle): (pagado: bool)
    ensures pagado <==> CalcularDeuda(v) < Settlement.Tolerance
    ensures OrZero(v.total) == 0.0 ==> pagado
  {
    CalcularDeuda(v) < 99.0
  }

  /** The report's debt differs from the settlement's balance by at most 50: only the
      rounding of the transfer to a multiple of 100 separates them. */
  lemma ReportVersusSettlement(v: VentaDetalle, efectivo: int, tb: int)
    requires v.montoEfectivo == Some(efectivo as real) && v.montoTb == Some(tb as real) && tb >= 0
    requires OrZero(v.total) != 0.0
    ensures var saldo := OrZero(v.total) - (efectivo as real + Settlement.TransferValue(tb));
      -50.0 <= CalcularDeuda(v) - saldo <= 50.0
  {
  }

  /** Overpaid sales and sales with no total always show as paid; a debt of exactly 99,
      which a settlement forgives, shows as owed. */
  lemma PagadoBoundaries(v: VentaDetalle)
    ensures CalcularDeuda(v) <= 0.0 ==> Pagado(v)
    ensures OrZero(v.total) == 0.0 ==> Pagado(v)
    ensures CalcularDeuda(v) == Settlement.Tolerance ==> !Pagado(v) && Settlement.NuevaDeuda(CalcularDeuda(v)) == 0.0
  {
  }

  /** A delivery of 1140 paid with a transfer of 1081 leaves a balance of about 90.5 at
      settlement, which is forgiven; the report rounds the transfer down to 1000 and
      shows a debt of 140. */
  lemma SettledSaleShownAsOwing()
    ensures var v := VentaDetalle("v", "f", "c", "t", None, Some(0.0), Some(1081.0), Some(1140.0));
      && Settlement.Liquidar(1140.0, 0, 1081).Success?
      && Settlement.Liquidar(1140.0, 0, 1081).value.nuevaDeuda == 0.0
      && CalcularDeuda(v) == 140.0
      && !Pagado(v)
  {
    var y := 1081.0 / Settlement.FeeDivisor / 100.0;
    assert 10.0 <= y + 0.5 < 11.0;
    assert Round(y) == 10;
  }

  datatype Totales = Totales(totalVentas: real, totalCobrado: real, totalDeuda: real)

  function SumaTotales(ventas: seq<VentaDetalle>): real
  {
    if ventas == [] then 0.0 else SumaTotales(ventas[..|ventas| - 1]) + OrZero(ventas[|ventas| - 1].total)
  }

  /** Cash plus the raw transfer: the fee is not removed here. */
  function SumaCobrado(ventas: seq<VentaDetalle>): real
  {
    if ventas == [] then 0.0
    else
      var v := ventas[|ventas| - 1];
      SumaCobrado(ventas[..|ventas| - 1]) + OrZero(v.montoEfectivo) + OrZero(v.montoTb)
  }

  /** `calcularTotales`: the sum of totals, the sum collected, and their difference. */
  function CalcularTotales(ventas: seq<VentaDetalle>): (t: Totales)
    ensures t.totalDeuda == t.totalVentas - t.totalCobrado
    ensures ventas == [] ==> t == Totales(0.0, 0.0, 0.0)
  {
    var totalVentas := SumaTotales(ventas);
    var totalCobrado := SumaCobrado(ventas);
    Totales(totalVentas, totalCobrado, totalVentas - totalCobrado)
  }

  /** The per-sale debts added up. */
  function SumaDeudas(ventas: seq<VentaDetalle>): real
  {
    if ventas == [] then 0.0 else SumaDeudas(ventas[..|ventas| - 1]) + CalcularDeuda(ventas[|ventas| - 1])
  }

  /** Without transfers, and with every total present and non-zero, the debt at the top
      of the report is the sum of the debts in the table. */
  lemma {:induction false} TotalDeudaSinTransferencias(ventas: seq<VentaDetalle>)
    requires forall i :: 0 <= i < |ventas| ==> OrZero(ventas[i].montoTb) == 0.0 && OrZero(ventas[i].total) != 0.0
    ensures CalcularTotales(ventas).totalDeuda == SumaDeudas(ventas)
  {
    if ventas != [] {
      var init := ventas[..|ventas| - 1];
      assert forall i :: 0 <= i < |init| ==> init[i] == ventas[i];
      TotalDeudaSinTransferencias(init);
    }
  }

  /** What a sale adds to the page's total debt beyond its own debt in the table: the
      report's view of the transfer less the raw transfer for a sale with a total, and
      minus everything paid for a sale without one. */
  function Ajuste(v: VentaDetalle): real
  {
    if OrZero(v.total) != 0.0 then TransferenciaReporte(OrZero(v.montoTb)) - OrZero(v.montoTb)
    else -(OrZero(v.montoEfectivo) + OrZero(v.montoTb))
  }

  function SumaAjustes(ventas: seq<VentaDetalle>): real
  {
    if ventas == [] then 0.0 else SumaAjustes(ventas[..|ventas| - 1]) + Ajuste(ventas[|ventas| - 1])
  }

  /** One more sale adds its total to the sales, its cash and raw transfer to what was
      collected, and their difference to the debt. */
  lemma TotalesAgregar(ventas: seq<VentaDetalle>, v: VentaDetalle)
    ensures var t, u := CalcularTotales(ventas), CalcularTotales(ventas + [v]);
      && u.totalVentas == t.totalVentas + OrZero(v.total)
      && u.totalCobrado == t.totalCobrado + OrZero(v.montoEfectivo) + OrZero(v.montoTb)
      && u.totalDeuda == t.totalDeuda + OrZero(v.total) - OrZero(v.montoEfectivo) - OrZero(v.montoTb)
  {
    assert (ventas + [v])[..|ventas|] == ventas;
  }

  /** For any sales, the debt at the top of the report is the sum of the debts in the
      table plus each sale's adjustment. */
  lemma {:induction false} TotalDeudaPorVenta(ventas: seq<VentaDetalle>)
    ensures CalcularTotales(ventas).totalDeuda == SumaDeudas(ventas) + SumaAjustes(ventas)
  {
    if ventas != [] {
      var init := ventas[..|ventas| - 1];
      TotalDeudaPorVenta(init);
      assert ventas == init + [ventas[|ventas| - 1]];
      TotalesAgregar(init, ventas[|ventas| - 1]);
    }
  }

  /** With a transfer the two disagree: a sale of 1030 paid by a transfer of 1030 adds
      nothing to the total debt, yet the table shows it owing 30. */
  lemma TotalsIgnoreTransferFee()
    ensures var v := VentaDetalle("v", "f", "c", "t", None, None, Some(1030.0), Some(1030.0));
      && CalcularTotales([v]).totalDeuda == 0.0
      && CalcularDeuda(v) == 30.0
  {
    var v := VentaDetalle("v", "f", "c", "t", None, None, Some(1030.0), Some(1030.0));
    assert [v][..0] == [];
    var y := 1030.0 / Settlement.FeeDivisor / 100.0;
    assert y == 10.0;
    assert Round(y) == 10;
  }

  /** The date range sent to the database for a reload. */
  datatype Rango = Rango(desde: string, hasta: string)

  /** `filtrarVentas`: both dates are required; the range covers whole days. */
  function FiltrarVentas(fechaDesde: string, fechaHasta: string): (r: Option<Rango>)
    ensures r.None? <==> fechaDesde == [] || fechaHasta == []
    ensures r.Some? ==> fechaDesde <= r.value.desde && fechaHasta <= r.value.hasta
  {
    if fechaDesde == [] || fechaHasta == [] then None
    else Some(Rango(fechaDesde + "T00:00:00", fechaHasta + "T23:59:59"))
  }
}

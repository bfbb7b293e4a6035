/** The sales history screen: one day's rows of the sales ledger, their
    metrics, and the report document built from them. */
module Historial {
  import opened Common
  import opened Store
  import opened Caja

  /** The query window of a day: from its first to its last second. */
  function Ventana(fecha: string): (r: (string, string))
    ensures fecha <= r.0 && fecha <= r.1
    ensures r.0[|fecha|..] == "T00:00:00" && r.1[|fecha|..] == "T23:59:59"
  {
    (fecha + "T00:00:00", fecha + "T23:59:59")
  }

  // ---------------------------------------------------------------------------
  // Metrics

  /** `totalVentas`: Σ cantidad·precio_unitario over the rows. */
  function TotalVentas(vs: seq<Venta>): (r: int)
    ensures vs == [] ==> r == 0
    ensures |vs| == 1 ==> r == vs[0].cantidad * vs[0].precioUnitario
  {
    SumCorto(vs, ImporteVenta);
    Sum(vs, ImporteVenta)
  }

  /** The distinct order ids among the rows. */
  function IdsPedidos(vs: seq<Venta>): (r: set<int>)
    ensures |r| <= |vs|
    ensures forall id :: id in r <==> exists v :: v in vs && v.pedidoId == id
  {
    if vs == [] then {}
    else
      var rest := IdsPedidos(vs[1..]);
      assert forall v :: v in vs[1..] ==> v in vs;
      assert forall v :: v in vs ==> v == vs[0] || v in vs[1..];
      {vs[0].pedidoId} + rest
  }

  /** `pedidosTotales`: how many different orders the rows come from; no
      more than there are rows, and none exactly when there are no rows. */
  function PedidosTotales(vs: seq<Venta>): (r: nat)
    ensures r <= |vs|
    ensures r == 0 <==> vs == []
  {
    var ids := IdsPedidos(vs);
    assert vs != [] ==> vs[0].pedidoId in ids;
    |ids|
  }

  /** `promedio`: the average sale per order, 0 when there are none. */
  function Promedio(vs: seq<Venta>): (r: real)
    ensures PedidosTotales(vs) > 0 ==> r * PedidosTotales(vs) as real == TotalVentas(vs) as real
    ensures vs == [] ==> r == 0.0
  {
    var n := PedidosTotales(vs);
    var t := TotalVentas(vs);
    if n > 0 then t as real / n as real else 0.0
  }

  /** With non-negative amounts the total, and hence the average, is
      non-negative. */
  lemma PromedioNoNegativo(vs: seq<Venta>)
    requires forall v :: v in vs ==> v.cantidad >= 0 && v.precioUnitario >= 0
    ensures TotalVentas(vs) >= 0 && Promedio(vs) >= 0.0
  {
    SumNonNegative(vs, ImporteVenta);
    var n := PedidosTotales(vs);
    if n > 0 {
      var t := TotalVentas(vs) as real;
      assert t >= 0.0 && n as real > 0.0;
      assert Promedio(vs) == t / n as real;
    }
  }

  /** The rows one collected order adds to the ledger count one order and
      add up to that order's total. */
  lemma MetricasDeUnPedido(p: Orders.Pedido, fecha: string)
    requires |p.detalles| > 0
    ensures PedidosTotales(VentasDe(p, fecha)) == 1
    ensures TotalVentas(VentasDe(p, fecha)) == Orders.Total(p.detalles)
  {
    var vs := VentasDe(p, fecha);
    VentasDeTotal(p, fecha);
    var ids := IdsPedidos(vs);
    assert ids == {p.id} by {
      assert vs[0] in vs;
      forall id | id in ids ensures id == p.id {
        var v :| v in vs && v.pedidoId == id;
      }
    }
  }

  // ---------------------------------------------------------------------------
  // The report

  /** The table column: `Mesa N` for a numbered table, `Para llevar` when
      the number is missing or 0. */
  function EtiquetaMesa(numero: Option<int>): (r: string)
    ensures numero.None? || numero.value == 0 ==> r == "Para llevar"
    ensures numero.Some? && numero.value != 0 ==> r == "Mesa " + IntToString(numero.value)
  {
    if numero.Some? && numero.value != 0 then "Mesa " + IntToString(numero.value) else "Para llevar"
  }

  /** The sales rows of a takeaway order, which has no table, are all
      labelled `Para llevar`. */
  lemma EtiquetaParaLlevar(p: Orders.Pedido, fecha: string, i: int)
    requires p.numeroMesa.None? && 0 <= i < |p.detalles|
    ensures EtiquetaMesa(VentasDe(p, fecha)[i].numeroMesa) == "Para llevar"
  {
  }

  /** One row of the report's table; money is in cents here, before any
      formatting. */
  datatype Fila = Fila(pedidoId: int, mesa: string, platillo: string, descripcion: string,
    cantidad: int, precioUnitario: int, subtotal: int)

  datatype Reporte = Reporte(filas: seq<Fila>, totalPlatillos: int, totalGeneral: int)

  function FilaDe(v: Venta): (r: Fila)
    ensures r.pedidoId == v.pedidoId && r.mesa == EtiquetaMesa(v.numeroMesa) && r.platillo == v.platillo
    ensures r.descripcion == (if v.descripcion == "" then "-" else v.descripcion)
    ensures r.cantidad == v.cantidad && r.precioUnitario == v.precioUnitario
    ensures r.subtotal == ImporteVenta(v)
  {
    Fila(v.pedidoId, EtiquetaMesa(v.numeroMesa), v.platillo, if v.descripcion == "" then "-" else v.descripcion,
      v.cantidad, v.precioUnitario, v.cantidad * v.precioUnitario)
  }

  function CantidadVenta(v: Venta): int {
    v.cantidad
  }

  function SubtotalFila(f: Fila): int {
    f.subtotal
  }

  /** `generarPDF`: no report for a day without sales; otherwise one row
      per sale, the number of dishes sold and the day's total, which is the
      same figure as the metrics' total. */
  function GenerarReporte(vs: seq<Venta>): (r: Option<Reporte>)
    ensures r.None? <==> vs == []
    ensures r.Some? ==>
      |r.value.filas| == |vs| && (forall i :: 0 <= i < |vs| ==> r.value.filas[i] == FilaDe(vs[i])) &&
      r.value.totalPlatillos == Sum(vs, CantidadVenta) &&
      r.value.totalGeneral == TotalVentas(vs)
  {
    if vs == [] then None
    else Some(Reporte(seq(|vs|, i requires 0 <= i < |vs| => FilaDe(vs[i])),
      Sum(vs, CantidadVenta), Sum(vs, ImporteVenta)))
  }

  /** The subtotal column of the report adds up to its total line. */
  lemma ReporteCuadra(vs: seq<Venta>)
    requires vs != []
    ensures Sum(GenerarReporte(vs).value.filas, SubtotalFila) == GenerarReporte(vs).value.totalGeneral
  {
    var r := GenerarReporte(vs).value;
    SumSame(r.filas, SubtotalFila, vs, ImporteVenta);
  }
}

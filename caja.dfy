/** The cashier's web screen: the orders waiting to be paid or already
    paid, each with its recomputed total; collecting an order marks it
    `Entregado` and records its line items in the daily sales ledger. */
module Caja {
  import opened Common
  import opened Orders
  import opened Store

  datatype AvisoCaja = ErrorAlEntregar | Cobrado(id: int)

  /** The cashier sees orders that are `Pendiente de cobro` or `Entregado`. */
  predicate EnCaja(p: Pedido) {
    p.estado == PendienteDeCobro || p.estado == Entregado
  }

  /** `{ ...p, total: totalPedido }`: the stored total is replaced by the
      sum over the order's line items. */
  function Recalcular(p: Pedido): (r: Pedido)
    ensures r.total == Some(Total(p.detalles))
    ensures r == p.(total := r.total)
  {
    p.(total := Some(Total(p.detalles)))
  }

  function RecalcularTodos(ps: seq<Pedido>): (r: seq<Pedido>)
    ensures |r| == |ps| && forall i :: 0 <= i < |ps| ==> r[i] == Recalcular(ps[i])
  {
    seq(|ps|, i requires 0 <= i < |ps| => Recalcular(ps[i]))
  }

  /** The cashier's list, from the orders in the store's id order. */
  function PedidosCaja(todos: seq<Pedido>): (r: seq<Pedido>)
    ensures |r| <= |todos|
    ensures forall i :: 0 <= i < |r| ==> EnCaja(r[i]) && r[i].total == Some(Total(r[i].detalles))
  {
    FilterPasan(todos, EnCaja);
    RecalcularTodos(Filter(todos, EnCaja))
  }

  /** Every listed order is awaiting payment or paid, carries the total of
      its own line items, and is an order of the store. */
  lemma PedidosCajaListados(todos: seq<Pedido>, p: Pedido)
    requires p in PedidosCaja(todos)
    ensures EnCaja(p) && p.total == Some(Total(p.detalles))
    ensures exists q :: q in todos && p == Recalcular(q)
  {
    var f := Filter(todos, EnCaja);
    var k :| 0 <= k < |f| && PedidosCaja(todos)[k] == p;
    FilterSii(todos, EnCaja, f[k]);
    assert f[k] in f;
  }

  /** And every such order of the store is listed. */
  lemma PedidosCajaCompleto(todos: seq<Pedido>, q: Pedido)
    requires q in todos && EnCaja(q)
    ensures Recalcular(q) in PedidosCaja(todos)
  {
    var f := Filter(todos, EnCaja);
    FilterSii(todos, EnCaja, q);
    var k :| 0 <= k < |f| && f[k] == q;
    assert PedidosCaja(todos)[k] == Recalcular(q);
  }

  // ---------------------------------------------------------------------------
  // The sales ledger

  /** `d.platillos?.nombre || "Desconocido"`. */
  function NombreVenta(d: Detalle): (r: string)
    ensures r != ""
    ensures d.platillo.Some? && d.platillo.value.nombre.Some? && d.platillo.value.nombre.value != "" ==>
      r == d.platillo.value.nombre.value
  {
    if d.platillo.Some? && d.platillo.value.nombre.Some? && d.platillo.value.nombre.value != ""
    then d.platillo.value.nombre.value else "Desconocido"
  }

  /** `d.platillos?.descripcion || ""`. */
  function DescripcionVenta(d: Detalle): string {
    if d.platillo.Some? then d.platillo.value.descripcion.GetOr("") else ""
  }

  /** The sales rows of an order: one per line item, in order, copying the
      order's id and table and the item's quantity and price. */
  function VentasDe(p: Pedido, fecha: string): (r: seq<Venta>)
    ensures |r| == |p.detalles|
    ensures forall i :: 0 <= i < |r| ==>
      r[i].pedidoId == p.id && r[i].numeroMesa == p.numeroMesa &&
      r[i].cantidad == p.detalles[i].cantidad && r[i].precioUnitario == p.detalles[i].precioUnitario &&
      r[i].platillo == NombreVenta(p.detalles[i]) && r[i].descripcion == DescripcionVenta(p.detalles[i]) &&
      r[i].fecha == fecha
  {
    seq(|p.detalles|, i requires 0 <= i < |p.detalles| =>
      Venta(p.id, p.numeroMesa, NombreVenta(p.detalles[i]), DescripcionVenta(p.detalles[i]),
        p.detalles[i].cantidad, p.detalles[i].precioUnitario, fecha))
  }

  function ImporteVenta(v: Venta): int {
    v.cantidad * v.precioUnitario
  }

  /** The ledger rows of an order add up to the order's total. */
  lemma VentasDeTotal(p: Pedido, fecha: string)
    ensures Sum(VentasDe(p, fecha), ImporteVenta) == Total(p.detalles)
  {
    SumSame(VentasDe(p, fecha), ImporteVenta, p.detalles, Subtotal);
  }

  /** `registrarVenta`: an order with no line items records nothing;
      otherwise its rows are inserted together, and a failed insert is
      only logged. */
  method RegistrarVenta(db: Db, pedido: Pedido, fecha: string, fallo: bool)
    modifies db`ventas
    ensures db.ventas == if |pedido.detalles| == 0 || fallo then old(db.ventas)
      else old(db.ventas) + VentasDe(pedido, fecha)
  {
    if |pedido.detalles| == 0 {
      return;
    }
    var ok := db.InsertVentas(VentasDe(pedido, fecha), fallo);
  }

  // ---------------------------------------------------------------------------
  // The pending total

  function TotalOCero(p: Pedido): int {
    p.total.GetOr(0)
  }

  /** `totalGeneral`: the totals of the orders still awaiting payment. */
  function TotalGeneral(ps: seq<Pedido>): (r: int)
    ensures (forall i :: 0 <= i < |ps| ==> ps[i].estado != PendienteDeCobro) ==> r == 0
    ensures (forall i :: 0 <= i < |ps| ==> TotalOCero(ps[i]) >= 0) ==> r >= 0
  {
    var pend := (p: Pedido) => p.estado == PendienteDeCobro;
    var f := Filter(ps, pend);
    FilterPasan(ps, pend);
    assert (forall i :: 0 <= i < |ps| ==> ps[i].estado != PendienteDeCobro) ==> f == [] by {
      if f != [] {
        assert f[0] in ps && pend(f[0]);
      }
    }
    assert (forall i :: 0 <= i < |ps| ==> TotalOCero(ps[i]) >= 0) ==> Sum(f, TotalOCero) >= 0 by {
      if forall i :: 0 <= i < |ps| ==> TotalOCero(ps[i]) >= 0 {
        SumNonNegative(f, TotalOCero);
      }
    }
    Sum(f, TotalOCero)
  }

  /** Adding an order to the list adds its total only when it is awaiting
      payment; paid orders never count. */
  lemma TotalGeneralAgregar(ps: seq<Pedido>, p: Pedido)
    ensures TotalGeneral(ps + [p]) == TotalGeneral(ps) + (if p.estado == PendienteDeCobro then TotalOCero(p) else 0)
  {
    var pend := (p: Pedido) => p.estado == PendienteDeCobro;
    FilterAppend(ps, [p], pend);
    assert Filter([p], pend) == if pend(p) then [p] else [] by {
      assert [p][1..] == [];
    }
    SumAppend(Filter(ps, pend), Filter([p], pend), TotalOCero);
    assert [p][..0] == [];
  }

  class PantallaCaja {
    var pedidos: seq<Pedido>
    var aviso: Option<AvisoCaja>

    constructor ()
      ensures pedidos == [] && aviso == None
    {
      pedidos := [];
      aviso := None;
    }

    /** `fetchPedidos`: on an error the list shown is kept. */
    method FetchPedidos(todos: seq<Pedido>, fallo: bool)
      modifies this`pedidos
      ensures pedidos == if fallo then old(pedidos) else PedidosCaja(todos)
    {
      if !fallo {
        pedidos := PedidosCaja(todos);
      }
    }

    /** The realtime handler reloads only when the changed order is now
        awaiting payment or paid. */
    method AlCambiarPedido(nuevo: Option<Pedido>, todos: seq<Pedido>, fallo: bool)
      modifies this`pedidos
      ensures pedidos == if nuevo.Some? && EnCaja(nuevo.value) && !fallo then PedidosCaja(todos) else old(pedidos)
    {
      if nuevo.Some? && EnCaja(nuevo.value) {
        FetchPedidos(todos, fallo);
      }
    }

    /** `marcarEntregado`, offered only for orders awaiting payment. The
        status write comes first; if it fails nothing else happens.
        Otherwise the order's sales rows are recorded, with no check that
        they were not recorded before, and the list is reloaded. */
    method MarcarEntregado(db: Db, pedido: Pedido, fecha: string,
                           falloEstado: bool, falloVentas: bool, todos: seq<Pedido>, falloListado: bool)
      requires pedido.estado == PendienteDeCobro
      modifies this`pedidos, this`aviso, db`pedidos, db`ventas
      ensures db.pedidos == if !falloEstado && pedido.id in old(db.pedidos)
        then old(db.pedidos)[pedido.id := ConEstado(old(db.pedidos)[pedido.id], Entregado, None)]
        else old(db.pedidos)
      ensures falloEstado ==>
        db.ventas == old(db.ventas) && aviso == Some(ErrorAlEntregar) && pedidos == old(pedidos)
      ensures !falloEstado ==>
        db.ventas == (if |pedido.detalles| == 0 || falloVentas then old(db.ventas)
          else old(db.ventas) + VentasDe(pedido, fecha)) &&
        aviso == Some(Cobrado(pedido.id)) &&
        pedidos == (if falloListado then old(pedidos) else PedidosCaja(todos))
    {
      var ok := db.UpdatePedido(pedido.id, Entregado, None, falloEstado);
      if !ok {
        aviso := Some(ErrorAlEntregar);
        return;
      }
      RegistrarVenta(db, pedido, fecha, falloVentas);
      aviso := Some(Cobrado(pedido.id));
      FetchPedidos(todos, falloListado);
    }
  }
}

/** The waiter's bill screen for one table: it shows the order, its line
    amounts and total, and offers the next step of the collection flow
    that the order's status allows. */
module Cuenta {
  import opened Common
  import opened Orders
  import opened Store

  datatype AvisoCuenta =
    | NoDisponible | NoSePudoPedirCobro | EnviadoACaja
    | EsperaCaja | NoSePudoFinalizar | CuentaFinalizada

  /** The buttons the bill offers. */
  datatype Accion = PedirCobro | GenerarTicket | Finalizar

  /** The order with id `id` (`.eq("id", id).maybeSingle()`), or none. */
  function BuscarPorId(todos: seq<Pedido>, id: int): (r: Option<Pedido>)
    ensures r.Some? ==> r.value in todos && r.value.id == id
    ensures r.None? <==> forall p :: p in todos ==> p.id != id
  {
    if todos == [] then None
    else if todos[0].id == id then Some(todos[0])
    else BuscarPorId(todos[1..], id)
  }

  /** What the bill renders for a status: payment can be requested only
      when the order is `Listo`; the ticket and closing only once the
      cashier has set it `Entregado`. */
  function Acciones(estado: string): (r: set<Accion>)
    ensures PedirCobro in r <==> estado == Listo
    ensures GenerarTicket in r <==> estado == Entregado
    ensures Finalizar in r <==> estado == Entregado
  {
    if estado == Listo then {PedirCobro}
    else if estado == Entregado then {GenerarTicket, Finalizar}
    else {}
  }

  /** The amount shown on one line of the bill and of the ticket. */
  function ImporteLinea(d: Detalle): int {
    d.precioUnitario * d.cantidad
  }

  /** The bill's total, and the ticket's, add up exactly the line amounts
      the bill shows. */
  lemma TotalEsSumaDeLineas(ds: seq<Detalle>)
    ensures Total(ds) == Sum(ds, ImporteLinea)
  {
    SumSame(ds, Subtotal, ds, ImporteLinea);
  }

  class PantallaCuenta {
    /** The table's order id the screen was opened with. */
    const mesaId: int
    var pedido: Option<Pedido>
    var cargando: bool
    var aviso: Option<AvisoCuenta>
    /** Set once the screen has gone back to the home screen. */
    var volvio: bool

    constructor (mesaId: int)
      ensures this.mesaId == mesaId && pedido == None && cargando && aviso == None && !volvio
    {
      this.mesaId := mesaId;
      pedido := None;
      cargando := true;
      aviso := None;
      volvio := false;
    }

    /** `fetchPedido`: the order is replaced by what the store returns
        unless the query fails; loading ends in either case. */
    method FetchPedido(todos: seq<Pedido>, fallo: bool)
      modifies this`pedido, this`cargando
      ensures pedido == if fallo then old(pedido) else BuscarPorId(todos, mesaId)
      ensures !cargando
    {
      if !fallo {
        pedido := BuscarPorId(todos, mesaId);
      }
      cargando := false;
    }

    /** `pedirCobro`: from `Listo` only, the one write sets the order
        `Pendiente de cobro`; in any other status nothing is written.
        The status checked is the one last loaded on the screen. */
    method PedirCobroCuenta(db: Db, fallo: bool)
      requires pedido.Some?
      modifies this`aviso, db`pedidos
      ensures pedido.value.estado != Listo ==> db.pedidos == old(db.pedidos) && aviso == Some(NoDisponible)
      ensures pedido.value.estado == Listo ==>
        db.pedidos == (if !fallo && pedido.value.id in old(db.pedidos)
          then old(db.pedidos)[pedido.value.id := ConEstado(old(db.pedidos)[pedido.value.id], PendienteDeCobro, None)]
          else old(db.pedidos)) &&
        aviso == Some(if fallo then NoSePudoPedirCobro else EnviadoACaja)
    {
      if pedido.value.estado != Listo {
        aviso := Some(NoDisponible);
        return;
      }
      var ok := db.UpdatePedido(pedido.value.id, PendienteDeCobro, None, fallo);
      aviso := Some(if ok then EnviadoACaja else NoSePudoPedirCobro);
    }

    /** `finalizarCuenta`: from `Entregado` only, the one write sets the
        order `Completada` and, when it succeeds, the screen goes back home. */
    method FinalizarCuenta(db: Db, fallo: bool)
      requires pedido.Some?
      modifies this`aviso, this`volvio, db`pedidos
      ensures pedido.value.estado != Entregado ==>
        db.pedidos == old(db.pedidos) && aviso == Some(EsperaCaja) && volvio == old(volvio)
      ensures pedido.value.estado == Entregado ==>
        db.pedidos == (if !fallo && pedido.value.id in old(db.pedidos)
          then old(db.pedidos)[pedido.value.id := ConEstado(old(db.pedidos)[pedido.value.id], Completada, None)]
          else old(db.pedidos)) &&
        aviso == Some(if fallo then NoSePudoFinalizar else CuentaFinalizada) &&
        volvio == (old(volvio) || !fallo)
    {
      if pedido.value.estado != Entregado {
        aviso := Some(EsperaCaja);
        return;
      }
      var ok := db.UpdatePedido(pedido.value.id, Completada, None, fallo);
      if ok {
        aviso := Some(CuentaFinalizada);
        volvio := true;
      } else {
        aviso := Some(NoSePudoFinalizar);
      }
    }
  }
}

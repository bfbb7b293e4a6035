/** The kitchen's mobile screen: every order, newest id first, a grid of
    the ten tables with the latest order's status, the selected table's
    orders, and an alert when an order becomes ready. */
module CocinaMovil {
  import opened Common
  import opened Orders

  /** The screen's colours: free, amber, green and the blue default. */
  datatype Color = Libre | Ambar | Verde | Azul

  datatype AvisoMovil = PedidoListo(id: int)

  function IdDe(p: Pedido): int {
    p.id
  }

  /** With the list ordered by id, newest first, the first order of a table
      is the one with the highest id among that table's orders. */
  lemma PrimeroEsMayorId(ps: seq<Pedido>, mesa: Option<int>, p: Pedido, q: Pedido)
    requires Descending(ps, IdDe)
    requires EsPrimeroDeMesa(ps, mesa, p)
    requires q in ps && q.numeroMesa == mesa
    ensures q.id <= p.id
  {
    var k :| 0 <= k < |ps| && ps[k] == p && p.numeroMesa == mesa && forall j :: 0 <= j < k ==> ps[j].numeroMesa != mesa;
    var l :| 0 <= l < |ps| && ps[l] == q;
    assert k <= l;
    if k < l {
      assert IdDe(ps[k]) >= IdDe(ps[l]);
    }
  }

  /** `pedidosMesa`: the orders of one table, in list order. */
  function PedidosMesa(ps: seq<Pedido>, mesa: int): (r: seq<Pedido>)
    ensures |r| <= |ps|
    ensures forall i :: 0 <= i < |r| ==> r[i] in ps && r[i].numeroMesa == Some(mesa)
  {
    FilterPasan(ps, (p: Pedido) => p.numeroMesa == Some(mesa));
    Filter(ps, (p: Pedido) => p.numeroMesa == Some(mesa))
  }

  lemma PedidosMesaSii(ps: seq<Pedido>, mesa: int, p: Pedido)
    ensures p in PedidosMesa(ps, mesa) <==> p in ps && p.numeroMesa == Some(mesa)
  {
    FilterSii(ps, (p: Pedido) => p.numeroMesa == Some(mesa), p);
  }

  lemma PedidosMesaOrden(ps: seq<Pedido>, mesa: int)
    ensures IsSublist(PedidosMesa(ps, mesa), ps)
  {
    FilterSublist(ps, (p: Pedido) => p.numeroMesa == Some(mesa));
  }

  /** `colorEstado` as written: it compares against lower-case `pendiente`
      and `listo`. */
  function ColorEstado(estado: Option<string>): (r: Color)
    ensures r == Libre <==> estado.None? || estado.value == ""
    ensures r == Ambar <==> estado == Some("pendiente")
    ensures r == Verde <==> estado == Some("listo")
  {
    if estado.None? || estado.value == "" then Libre
    else if estado.value == "pendiente" then Ambar
    else if estado.value == "listo" then Verde
    else Azul
  }

  /** No status the app writes is spelled that way, so every order shows
      the blue default. */
  lemma ColorEstadoSiempreAzul(e: string)
    requires e in EstadosEscritos
    ensures ColorEstado(Some(e)) == Azul
  {
  }

  /** The grid badge: `LIBRE` for a table without an order, otherwise the
      latest order's status in capitals. */
  function Badge(p: Option<Pedido>): (r: string)
    ensures p.None? ==> r == "LIBRE"
    ensures p.Some? ==>
      |r| == |p.value.estado| && forall i :: 0 <= i < |r| ==> r[i] == UpperChar(p.value.estado[i])
  {
    if p.None? then "LIBRE" else Upper(p.value.estado)
  }

  /** A table whose order is in one of the app's statuses is never shown
      as free. */
  lemma BadgeNoLibre(p: Pedido)
    requires p.estado in EstadosEscritos
    ensures Badge(Some(p)) != "LIBRE"
  {
    var r := Badge(Some(p));
    if |p.estado| == 5 {
      assert p.estado == Listo;
      assert r[2] == 'S';
    }
  }

  /** The realtime handler's test as written: the changed row's new status
      must be exactly `listo`. */
  predicate AlertaListoEscrita(nuevo: Option<Pedido>) {
    nuevo.Some? && nuevo.value.estado == "listo"
  }

  /** No status the app writes passes that test, so the alert never
      shows. */
  lemma AlertaListoNuncaSalta(nuevo: Option<Pedido>)
    requires nuevo.Some? ==> nuevo.value.estado in EstadosEscritos
    ensures !AlertaListoEscrita(nuevo)
  {
  }

  /** The test as intended: the new status is `Listo`, the status the
      kitchen writes when it marks an order ready. */
  predicate AlertaListo(nuevo: Option<Pedido>) {
    nuevo.Some? && nuevo.value.estado == Listo
  }

  /** The intended test fires exactly on orders that became ready. */
  lemma AlertaListoSalta(nuevo: Option<Pedido>)
    requires nuevo.Some? && nuevo.value.estado in EstadosEscritos
    ensures AlertaListo(nuevo) <==> nuevo.value.estado == Listo
    ensures AlertaListo(nuevo) ==> !AlertaListoEscrita(nuevo)
  {
  }

  class PantallaCocinaMovil {
    var pedidos: seq<Pedido>
    var cargando: bool
    var mesaSeleccionada: int
    var aviso: Option<AvisoMovil>

    /** The list is kept as the store returns it, ordered by id, highest
        first. */
    predicate Valid()
      reads this
    {
      Descending(pedidos, IdDe)
    }

    constructor ()
      ensures pedidos == [] && cargando && mesaSeleccionada == 1 && aviso == None && Valid()
    {
      pedidos := [];
      cargando := true;
      mesaSeleccionada := 1;
      aviso := None;
    }

    /** `fetchPedidos`: every order, whatever its status, in the store's
        id-descending order; on an error the list shown is kept. */
    method FetchPedidos(todos: seq<Pedido>, fallo: bool)
      requires Valid() && Descending(todos, IdDe)
      modifies this`pedidos, this`cargando
      ensures pedidos == if fallo then old(pedidos) else todos
      ensures !cargando && Valid()
    {
      cargando := true;
      if !fallo {
        pedidos := todos;
      }
      cargando := false;
    }

    method SeleccionarMesa(mesa: int)
      modifies this`mesaSeleccionada
      ensures mesaSeleccionada == mesa
    {
      mesaSeleccionada := mesa;
    }

    /** The order a table's cell shows: the table's order with the highest
        id, or none. */
    method PedidoDeMesa(mesa: int) returns (r: Option<Pedido>)
      requires Valid()
      ensures r.Some? ==> r.value in pedidos && r.value.numeroMesa == Some(mesa)
      ensures r.Some? ==> forall q :: q in pedidos && q.numeroMesa == Some(mesa) ==> q.id <= r.value.id
      ensures r.None? <==> forall q :: q in pedidos ==> q.numeroMesa != Some(mesa)
    {
      var mapa := UltimoPedidoPorMesa(pedidos);
      if Some(mesa) in mapa {
        r := Some(mapa[Some(mesa)]);
        forall q | q in pedidos && q.numeroMesa == Some(mesa) ensures q.id <= r.value.id {
          PrimeroEsMayorId(pedidos, Some(mesa), r.value, q);
        }
      } else {
        r := None;
      }
    }

    /** A change to some order: the ready alert, with the test as written
        (so for the statuses the app writes it never shows, see
        `AlertaListoNuncaSalta`), then a reload. */
    method AlCambiarPedido(nuevo: Option<Pedido>, todos: seq<Pedido>, fallo: bool)
      requires Valid() && Descending(todos, IdDe)
      modifies this`pedidos, this`cargando, this`aviso
      ensures aviso == if AlertaListoEscrita(nuevo) then Some(PedidoListo(nuevo.value.id)) else old(aviso)
      ensures pedidos == (if fallo then old(pedidos) else todos) && !cargando && Valid()
    {
      if AlertaListoEscrita(nuevo) {
        aviso := Some(PedidoListo(nuevo.value.id));
      }
      FetchPedidos(todos, fallo);
    }
  }
}

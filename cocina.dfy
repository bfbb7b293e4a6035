/** The kitchen's web board: the orders sent to the kitchen, a grid of the
    ten tables coloured by their latest order, the selected table's order
    with its line items, and the button that marks that order ready. */
module Cocina {
  import opened Common
  import opened Orders
  import opened Store

  /** The board's colours: a free table, and the three status groups. */
  datatype Color = Libre | Ambar | Esmeralda | Azul

  datatype AvisoCocina = MarcadoListo(id: int) | NoSePudoMarcarListo

  // ---------------------------------------------------------------------------
  // Loading

  /** The kitchen sees orders that are `Enviado` or `Listo`. */
  predicate EnCocina(p: Pedido) {
    p.estado == Enviado || p.estado == Listo
  }

  /** A line item as the board keeps it: a missing dish becomes
      `Desconocido` / `Sin descripción`, a present one keeps its name and
      description; quantity, price and note are copied. */
  function MapearDetalle(d: Detalle): (r: Detalle)
    ensures r.id == d.id && r.cantidad == d.cantidad && r.precioUnitario == d.precioUnitario && r.nota == d.nota
    ensures d.platillo.None? ==> r.platillo == Some(Dish(Some("Desconocido"), Some("Sin descripción"), None))
    ensures d.platillo.Some? ==>
      r.platillo.Some? && r.platillo.value.nombre == d.platillo.value.nombre &&
      r.platillo.value.descripcion == d.platillo.value.descripcion
  {
    var dish := if d.platillo.Some? then Dish(d.platillo.value.nombre, d.platillo.value.descripcion, None)
      else Dish(Some("Desconocido"), Some("Sin descripción"), None);
    d.(platillo := Some(dish))
  }

  /** An order as the board keeps it: id, table, status, creation time and
      its mapped line items; the columns the board does not select are
      absent. */
  function MapearPedido(p: Pedido): (r: Pedido)
    ensures r.id == p.id && r.numeroMesa == p.numeroMesa && r.estado == p.estado && r.createdAt == p.createdAt
    ensures |r.detalles| == |p.detalles|
    ensures forall i :: 0 <= i < |p.detalles| ==> r.detalles[i] == MapearDetalle(p.detalles[i])
  {
    Pedido(p.id, None, None, p.numeroMesa, p.estado, p.createdAt, None, None, None, None,
      seq(|p.detalles|, i requires 0 <= i < |p.detalles| => MapearDetalle(p.detalles[i])))
  }

  /** Mapping line items keeps the order total. */
  lemma MapearConservaTotal(p: Pedido)
    ensures Total(MapearPedido(p).detalles) == Total(p.detalles)
  {
    SumSame(MapearPedido(p).detalles, Subtotal, p.detalles, Subtotal);
  }

  function MapearTodos(ps: seq<Pedido>): (r: seq<Pedido>)
    ensures |r| == |ps| && forall i :: 0 <= i < |ps| ==> r[i] == MapearPedido(ps[i])
  {
    seq(|ps|, i requires 0 <= i < |ps| => MapearPedido(ps[i]))
  }

  /** The board's list, from the orders in the store's `created_at` order. */
  function PedidosCocina(todos: seq<Pedido>): (r: seq<Pedido>)
    ensures |r| <= |todos|
    ensures forall i :: 0 <= i < |r| ==> EnCocina(r[i])
  {
    FilterPasan(todos, EnCocina);
    MapearTodos(Filter(todos, EnCocina))
  }

  /** Every order on the board is `Enviado` or `Listo`, and each such order
      of the store is on the board. */
  lemma PedidosCocinaSii(todos: seq<Pedido>, p: Pedido)
    ensures p in todos && EnCocina(p) ==> MapearPedido(p) in PedidosCocina(todos)
    ensures p in PedidosCocina(todos) ==> EnCocina(p) && exists q :: q in todos && p == MapearPedido(q)
  {
    var f := Filter(todos, EnCocina);
    FilterSii(todos, EnCocina, p);
    if p in todos && EnCocina(p) {
      var k :| 0 <= k < |f| && f[k] == p;
      assert PedidosCocina(todos)[k] == MapearPedido(p);
    }
    if p in PedidosCocina(todos) {
      var k :| 0 <= k < |f| && PedidosCocina(todos)[k] == p;
      FilterSii(todos, EnCocina, f[k]);
      assert f[k] in f;
    }
  }

  /** Newest first in the store means newest first on the board. */
  lemma PedidosCocinaOrdenados(todos: seq<Pedido>)
    requires Descending(todos, (p: Pedido) => p.createdAt)
    ensures Descending(PedidosCocina(todos), (p: Pedido) => p.createdAt)
  {
    var key := (p: Pedido) => p.createdAt;
    FilterKeepsDescending(todos, EnCocina, key);
    var f := Filter(todos, EnCocina);
    var r := PedidosCocina(todos);
    forall i, j | 0 <= i < j < |r| ensures key(r[i]) >= key(r[j]) {
      assert key(r[i]) == key(f[i]) && key(r[j]) == key(f[j]);
    }
  }

  // ---------------------------------------------------------------------------
  // The table grid

  /** `mesaColor`: no status (a free table) or a blank one is slate,
      `Enviado` amber, `Listo` emerald, anything else blue. */
  function MesaColor(estado: Option<string>): (r: Color)
    ensures r == Libre <==> estado.None? || estado.value == ""
    ensures r == Ambar <==> estado == Some(Enviado)
    ensures r == Esmeralda <==> estado == Some(Listo)
  {
    if estado.None? || estado.value == "" then Libre
    else if estado.value == Enviado then Ambar
    else if estado.value == Listo then Esmeralda
    else Azul
  }

  /** `mesaBadge`: `LIBRE` for a free table, otherwise the status in
      capitals. */
  function MesaBadge(estado: Option<string>): (r: string)
    ensures estado.None? || estado.value == "" ==> r == "LIBRE"
    ensures estado.Some? && estado.value != "" ==>
      |r| == |estado.value| && forall i :: 0 <= i < |r| ==> r[i] == UpperChar(estado.value[i])
  {
    if estado.None? || estado.value == "" then "LIBRE" else Upper(estado.value)
  }

  /** A table whose latest order is in one of the app's statuses is never
      shown as free. */
  lemma MesaBadgeNoLibre(e: string)
    requires e in EstadosEscritos
    ensures MesaBadge(Some(e)) != "LIBRE"
  {
    var r := MesaBadge(Some(e));
    if |e| == 5 {
      assert e == Listo;
      assert r[2] == 'S';
    }
  }

  class PantallaCocina {
    var pedidos: seq<Pedido>
    var cargando: bool
    /** The grid shows tables 1 to 10; table 1 starts selected. */
    var mesaSeleccionada: int
    var aviso: Option<AvisoCocina>

    constructor ()
      ensures pedidos == [] && cargando && mesaSeleccionada == 1 && aviso == None
    {
      pedidos := [];
      cargando := true;
      mesaSeleccionada := 1;
      aviso := None;
    }

    /** `fetchPedidos`: the board's list, or the empty list when the query
        fails; loading ends either way. */
    method FetchPedidos(todos: seq<Pedido>, fallo: bool)
      modifies this`pedidos, this`cargando
      ensures pedidos == if fallo then [] else PedidosCocina(todos)
      ensures !cargando
    {
      cargando := true;
      if fallo {
        pedidos := [];
      } else {
        pedidos := PedidosCocina(todos);
      }
      cargando := false;
    }

    method SeleccionarMesa(mesa: int)
      modifies this`mesaSeleccionada
      ensures mesaSeleccionada == mesa
    {
      mesaSeleccionada := mesa;
    }

    /** `pedidoSeleccionado`: the first listed order of the selected table,
        or none when the table has no order on the board. */
    method PedidoSeleccionado() returns (r: Option<Pedido>)
      ensures r.Some? ==> EsPrimeroDeMesa(pedidos, Some(mesaSeleccionada), r.value)
      ensures r.None? <==> forall p :: p in pedidos ==> p.numeroMesa != Some(mesaSeleccionada)
    {
      var mapa := UltimoPedidoPorMesa(pedidos);
      r := if Some(mesaSeleccionada) in mapa then Some(mapa[Some(mesaSeleccionada)]) else None;
    }

    /** `marcarListo`, offered only for an `Enviado` order: one write sets
        the order `Listo` together with its recomputed total, then the
        board is reloaded. */
    method MarcarListo(db: Db, pedido: Pedido, fallo: bool, todos: seq<Pedido>, falloListado: bool)
      requires pedido.estado == Enviado
      modifies this`pedidos, this`cargando, this`aviso, db`pedidos
      ensures db.pedidos == if !fallo && pedido.id in old(db.pedidos)
        then old(db.pedidos)[pedido.id := ConEstado(old(db.pedidos)[pedido.id], Listo, Some(Total(pedido.detalles)))]
        else old(db.pedidos)
      ensures fallo ==> aviso == Some(NoSePudoMarcarListo) && pedidos == old(pedidos) && cargando == old(cargando)
      ensures !fallo ==>
        aviso == Some(MarcadoListo(pedido.id)) &&
        pedidos == (if falloListado then [] else PedidosCocina(todos)) && !cargando
    {
      var ok := db.UpdatePedido(pedido.id, Listo, Some(Total(pedido.detalles)), fallo);
      if !ok {
        aviso := Some(NoSePudoMarcarListo);
        return;
      }
      aviso := Some(MarcadoListo(pedido.id));
      FetchPedidos(todos, falloListado);
    }
  }
}

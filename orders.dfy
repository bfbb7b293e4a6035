/** The order (`pedidos`) and line item (`detalle_pedidos`) data the screens
    read from the store, the status names they write, the order total that
    several screens recompute, and the "latest order per table" board that
    both kitchen screens build. */
module Orders {
  import opened Common

  // Status names, spelled exactly as the screens write and compare them.
  const Inconclusa: string := "Inconclusa"
  const Enviado: string := "Enviado"
  const Listo: string := "Listo"
  const PendienteDeCobro: string := "Pendiente de cobro"
  const Entregado: string := "Entregado"
  const Completada: string := "Completada"

  /** Every status some screen writes to an order. */
  const EstadosEscritos: set<string> := {Inconclusa, Enviado, Listo, PendienteDeCobro, Entregado, Completada}

  /** The dish joined to a line item (`platillos(nombre, descripcion, precio)`);
      a screen that does not select a column sees `None` for it. */
  datatype Dish = Dish(nombre: Option<string>, descripcion: Option<string>, precio: Option<int>)

  /** A line item as a screen receives it; `platillo` is `None` when the
      join found no dish. Money is in cents. */
  datatype Detalle = Detalle(id: int, cantidad: int, precioUnitario: int, nota: Option<string>, platillo: Option<Dish>)

  /** An order with its line items, as a screen receives it. */
  datatype Pedido = Pedido(
    id: int,
    idMesero: Option<string>,
    tipoServicio: Option<string>,
    numeroMesa: Option<int>,
    estado: string,
    createdAt: int,
    total: Option<int>,
    nota: Option<string>,
    nombreCliente: Option<string>,
    telefono: Option<string>,
    detalles: seq<Detalle>)

  function Subtotal(d: Detalle): int {
    d.cantidad * d.precioUnitario
  }

  /** `detalles.reduce((acc, d) => acc + d.cantidad * d.precio_unitario, 0)`. */
  function Total(ds: seq<Detalle>): (r: int)
    ensures ds == [] ==> r == 0
    ensures |ds| == 1 ==> r == ds[0].cantidad * ds[0].precioUnitario
  {
    SumCorto(ds, Subtotal);
    Sum(ds, Subtotal)
  }

  lemma TotalAppend(a: seq<Detalle>, b: seq<Detalle>)
    ensures Total(a + b) == Total(a) + Total(b)
  {
    SumAppend(a, b, Subtotal);
  }

  /** Line items with non-negative quantities and prices give a non-negative total. */
  lemma TotalNonNegative(ds: seq<Detalle>)
    requires forall d :: d in ds ==> d.cantidad >= 0 && d.precioUnitario >= 0
    ensures Total(ds) >= 0
  {
    SumNonNegative(ds, Subtotal);
  }

  // ---------------------------------------------------------------------------
  // "Latest order per table"

  /** `p` is the first order of table `mesa` in list order. */
  predicate EsPrimeroDeMesa(ps: seq<Pedido>, mesa: Option<int>, p: Pedido) {
    exists k :: 0 <= k < |ps| && ps[k] == p && p.numeroMesa == mesa &&
      forall j :: 0 <= j < k ==> ps[j].numeroMesa != mesa
  }

  /** The board's `Map` from table number to order: a `for` loop that keeps
      the first order it meets for each table. A table is a key exactly when
      some listed order is for it, and its value is the first such order. */
  method UltimoPedidoPorMesa(ps: seq<Pedido>) returns (mapa: map<Option<int>, Pedido>)
    ensures forall m :: m in mapa <==> exists p :: p in ps && p.numeroMesa == m
    ensures forall m :: m in mapa ==> EsPrimeroDeMesa(ps, m, mapa[m])
  {
    mapa := map[];
    for i := 0 to |ps|
      invariant forall m :: m in mapa <==> exists k :: 0 <= k < i && ps[k].numeroMesa == m
      invariant forall m :: m in mapa ==>
        exists k :: 0 <= k < i && ps[k] == mapa[m] && mapa[m].numeroMesa == m && (forall j :: 0 <= j < k ==> ps[j].numeroMesa != m)
    {
      if ps[i].numeroMesa !in mapa {
        mapa := mapa[ps[i].numeroMesa := ps[i]];
      }
    }
  }

  /** The first order of a table is unique. */
  lemma PrimeroDeMesaUnico(ps: seq<Pedido>, mesa: Option<int>, p: Pedido, q: Pedido)
    requires EsPrimeroDeMesa(ps, mesa, p) && EsPrimeroDeMesa(ps, mesa, q)
    ensures p == q
  {
    var k :| 0 <= k < |ps| && ps[k] == p && p.numeroMesa == mesa && forall j :: 0 <= j < k ==> ps[j].numeroMesa != mesa;
    var l :| 0 <= l < |ps| && ps[l] == q && q.numeroMesa == mesa && forall j :: 0 <= j < l ==> ps[j].numeroMesa != mesa;
  }
}

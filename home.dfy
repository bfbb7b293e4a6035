/** The waiter's home screen: the waiter's open tables, the status filter
    chips and search box over them, the status counters, each table's
    estimated total, and the modal that opens a new table. */
module Home {
  import opened Common
  import opened Orders
  import opened Store

  /** The filter chips: all tables, or the tables in one status. */
  datatype Filtro = Todas | Solo(estado: string)

  datatype AvisoHome = IngresaNumero | NoSePudoAgregarMesa

  // ---------------------------------------------------------------------------
  // Loading

  /** The waiter's tables: the orders of this waiter that are not
      `Completada`, in the order the store returns them (newest first). */
  function MesasDe(todos: seq<Pedido>, usuario: string): (r: seq<Pedido>)
    ensures |r| <= |todos|
    ensures forall i :: 0 <= i < |r| ==> r[i] in todos && r[i].idMesero == Some(usuario) && r[i].estado != Completada
  {
    FilterPasan(todos, (p: Pedido) => p.idMesero == Some(usuario) && p.estado != Completada);
    Filter(todos, (p: Pedido) => p.idMesero == Some(usuario) && p.estado != Completada)
  }

  lemma MesasDeSii(todos: seq<Pedido>, usuario: string, p: Pedido)
    ensures p in MesasDe(todos, usuario) <==>
      p in todos && p.idMesero == Some(usuario) && p.estado != Completada
  {
    FilterSii(todos, (p: Pedido) => p.idMesero == Some(usuario) && p.estado != Completada, p);
  }

  lemma MesasDeOrdenadas(todos: seq<Pedido>, usuario: string)
    requires Descending(todos, (p: Pedido) => p.createdAt)
    ensures Descending(MesasDe(todos, usuario), (p: Pedido) => p.createdAt)
  {
    FilterKeepsDescending(todos, (p: Pedido) => p.idMesero == Some(usuario) && p.estado != Completada,
      (p: Pedido) => p.createdAt);
  }

  // ---------------------------------------------------------------------------
  // Search

  /** `mesa ${x.numero_mesa}`: a missing number renders as `null`. */
  function MesaTexto(numero: Option<int>): string {
    "mesa " + (if numero.Some? then IntToString(numero.value) else "null")
  }

  /** `p?.platillos?.nombre || ""`. */
  function NombrePlatillo(d: Detalle): string {
    if d.platillo.Some? then d.platillo.value.nombre.GetOr("") else ""
  }

  function Nombres(ds: seq<Detalle>): (r: seq<string>)
    ensures |r| == |ds| && forall i :: 0 <= i < |ds| ==> r[i] == NombrePlatillo(ds[i])
  {
    seq(|ds|, i requires 0 <= i < |ds| => NombrePlatillo(ds[i]))
  }

  /** The search matches the table text, the note, or the dish names
      joined with spaces, each lower-cased. */
  predicate Coincide(x: Pedido, query: string) {
    Contains(Lower(MesaTexto(x.numeroMesa)), query) ||
    Contains(Lower(x.nota.GetOr("")), query) ||
    Contains(Lower(Join(Nombres(x.detalles), " ")), query)
  }

  predicate PasaFiltro(x: Pedido, filtro: Filtro) {
    filtro.Todas? || x.estado == filtro.estado
  }

  /** A blank search box keeps everything; otherwise the trimmed,
      lower-cased text must match. */
  predicate PasaBusqueda(x: Pedido, q: string) {
    AllSpace(q) || Coincide(x, Lower(Trim(q)))
  }

  predicate Pasa(filtro: Filtro, q: string, x: Pedido) {
    PasaFiltro(x, filtro) && PasaBusqueda(x, q)
  }

  function EnEstado(filtro: Filtro): Pedido -> bool {
    x => PasaFiltro(x, filtro)
  }

  function Busca(query: string): Pedido -> bool {
    x => Coincide(x, query)
  }

  function PasaTodo(filtro: Filtro, q: string): Pedido -> bool {
    x => Pasa(filtro, q, x)
  }

  /** The tables that pass both the chip and the search, in list order. */
  function Filtrado(items: seq<Pedido>, filtro: Filtro, q: string): (r: seq<Pedido>)
    ensures |r| <= |items|
    ensures forall i :: 0 <= i < |r| ==> r[i] in items && PasaFiltro(r[i], filtro) && PasaBusqueda(r[i], q)
  {
    FilterPasan(items, PasaTodo(filtro, q));
    Filter(items, PasaTodo(filtro, q))
  }

  /** `Todas` with a blank search shows every table. */
  lemma FiltradoTodas(items: seq<Pedido>, q: string)
    requires AllSpace(q)
    ensures Filtrado(items, Todas, q) == items
  {
    FilterAll(items, PasaTodo(Todas, q));
  }

  /** The tables shown keep their order. */
  lemma FiltradoSublista(items: seq<Pedido>, filtro: Filtro, q: string)
    ensures IsSublist(Filtrado(items, filtro, q), items)
  {
    FilterSublist(items, PasaTodo(filtro, q));
  }

  /** A table is shown exactly when it is listed, has the chip's status
      (unless the chip is `Todas`) and matches the search. */
  lemma FiltradoSii(items: seq<Pedido>, filtro: Filtro, q: string, x: Pedido)
    ensures x in Filtrado(items, filtro, q) <==>
      x in items && (filtro.Todas? || x.estado == filtro.estado) &&
      (AllSpace(q) || Coincide(x, Lower(Trim(q))))
  {
    FilterSii(items, PasaTodo(filtro, q), x);
  }

  // The three shapes `filtrar` takes, one per step it skips or runs.

  lemma FiltradoSinTexto(items: seq<Pedido>, filtro: Filtro, q: string)
    requires AllSpace(q)
    ensures Filtrado(items, filtro, q) == Filter(items, EnEstado(filtro))
  {
    FilterSame(items, EnEstado(filtro), PasaTodo(filtro, q));
  }

  lemma FiltradoSoloTexto(items: seq<Pedido>, q: string)
    requires !AllSpace(q)
    ensures Filtrado(items, Todas, q) == Filter(items, Busca(Lower(Trim(q))))
  {
    FilterSame(items, Busca(Lower(Trim(q))), PasaTodo(Todas, q));
  }

  lemma FiltradoAmbos(items: seq<Pedido>, filtro: Filtro, q: string)
    requires !AllSpace(q)
    ensures Filtrado(items, filtro, q) == Filter(Filter(items, EnEstado(filtro)), Busca(Lower(Trim(q))))
  {
    DosPasos(items, filtro, q);
  }

  lemma DosPasos(items: seq<Pedido>, filtro: Filtro, q: string)
    requires !AllSpace(q)
    ensures Filter(items, PasaTodo(filtro, q)) == Filter(Filter(items, EnEstado(filtro)), Busca(Lower(Trim(q))))
  {
    var a := EnEstado(filtro);
    var b := Busca(Lower(Trim(q)));
    FilterFilter(items, a, b);
    FilterSame(items, x => a(x) && b(x), PasaTodo(filtro, q));
  }

  /** `filtrar`: narrows the list by the chip, then by the search text. */
  method Filtrar(items: seq<Pedido>, filtro: Filtro, q: string) returns (out: seq<Pedido>)
    ensures out == Filtrado(items, filtro, q)
  {
    out := items;
    if filtro != Todas {
      out := Filter(out, EnEstado(filtro));
    }
    var texto := Trim(q);
    if texto != "" {
      var query := Lower(texto);
      if filtro != Todas {
        FiltradoAmbos(items, filtro, q);
      } else {
        FiltradoSoloTexto(items, q);
      }
      out := Filter(out, Busca(query));
    } else if filtro != Todas {
      FiltradoSinTexto(items, filtro, q);
    } else {
      FiltradoTodas(items, q);
    }
  }

  // ---------------------------------------------------------------------------
  // Counters and totals

  /** `mesas.filter((m) => m.estado === estado).length`. */
  function Contar(ms: seq<Pedido>, estado: string): (r: nat)
    ensures r <= |ms|
  {
    |Filter(ms, (m: Pedido) => m.estado == estado)|
  }

  lemma {:induction false} ContarCons(ms: seq<Pedido>, estado: string)
    requires ms != []
    ensures Contar(ms, estado) == (if ms[0].estado == estado then 1 else 0) + Contar(ms[1..], estado)
  {
  }

  /** The three status counters never add up to more than the tables shown
      under `Todas`. */
  lemma {:induction false} ContadoresAcotados(ms: seq<Pedido>)
    ensures Contar(ms, Inconclusa) + Contar(ms, Enviado) + Contar(ms, Entregado) <= |ms|
  {
    if ms != [] {
      ContadoresAcotados(ms[1..]);
      ContarCons(ms, Inconclusa);
      ContarCons(ms, Enviado);
      ContarCons(ms, Entregado);
    }
  }

  /** `Number(p?.platillos?.precio) || 0`: the dish's current catalogue
      price, 0 when there is none. */
  function PrecioCatalogo(d: Detalle): int {
    if d.platillo.Some? then d.platillo.value.precio.GetOr(0) else 0
  }

  function ImporteCatalogo(d: Detalle): int {
    PrecioCatalogo(d) * d.cantidad
  }

  /** `totalMesa`, the card's estimate at current catalogue prices. */
  function TotalMesa(ds: seq<Detalle>): (r: int)
    ensures ds == [] ==> r == 0
    ensures |ds| == 1 ==> r == PrecioCatalogo(ds[0]) * ds[0].cantidad
  {
    SumCorto(ds, ImporteCatalogo);
    Sum(ds, ImporteCatalogo)
  }

  /** The estimate is the order total exactly when, item by item, the
      catalogue price is still the price the item was taken at. */
  lemma TotalMesaConPrecioVigente(ds: seq<Detalle>)
    requires forall d :: d in ds ==> PrecioCatalogo(d) == d.precioUnitario
    ensures TotalMesa(ds) == Total(ds)
  {
    SumSame(ds, ImporteCatalogo, ds, Subtotal);
  }

  /** Line items whose dish has no price add nothing to the estimate,
      whatever price they were taken at. */
  lemma {:induction false} TotalMesaSinPrecio(ds: seq<Detalle>)
    requires forall d :: d in ds ==> d.platillo.None? || d.platillo.value.precio.None?
    ensures TotalMesa(ds) == 0
  {
    if ds != [] {
      assert forall d :: d in ds[..|ds| - 1] ==> d in ds;
      TotalMesaSinPrecio(ds[..|ds| - 1]);
    }
  }

  /** Pressing a chip: the active chip switches back to `Todas`, any other
      chip becomes the filter. */
  function PulsarChip(filtro: Filtro, chip: Filtro): (r: Filtro)
    ensures r == Todas <==> filtro == chip || chip == Todas
    ensures r != Todas ==> r == chip
  {
    if filtro == chip then Todas else chip
  }

  // ---------------------------------------------------------------------------
  // Opening a table

  /** `Number(ocupantes) || null`: 0 and non-numeric text both store null. */
  function Ocupantes(texto: string): (r: Option<int>)
    ensures r.Some? ==> r.value != 0 && r == ParseNumber(texto)
    ensures r.None? <==> ParseNumber(texto) == None || ParseNumber(texto) == Some(0)
  {
    match ParseNumber(texto)
    case Some(n) => if n == 0 then None else Some(n)
    case None => None
  }

  /** The order row `agregarMesa` inserts. */
  function FilaMesa(usuario: string, numeroMesa: string, ocupantes: string, nota: string, fecha: string): (r: PedidoRow)
    ensures r.idMesero == Some(usuario) && r.estado == Inconclusa && r.total == Some(0)
    ensures r.numeroMesa == ParseNumber(numeroMesa) && r.ocupantes == Ocupantes(ocupantes)
    ensures r.nota == Some(nota) && r.fecha == Some(fecha)
    ensures r.tipoServicio == None && r.nombreCliente == None && r.telefono == None
  {
    PedidoRow(Some(usuario), None, ParseNumber(numeroMesa), Ocupantes(ocupantes), None, None,
      Some(nota), Inconclusa, Some(0), Some(fecha))
  }

  /** Typing the decimal number of a table stores that number. */
  lemma FilaMesaNumero(usuario: string, n: int, ocupantes: string, nota: string, fecha: string)
    ensures FilaMesa(usuario, IntToString(n), ocupantes, nota, fecha).numeroMesa == Some(n)
  {
    var t := IntToString(n);
    assert "" + t + "" == t;
    ParseNumberOfIntToString("", n, "");
    assert ParseNumber(t) == Some(n);
  }

  class PantallaHome {
    /** The signed-in waiter's id. */
    const usuario: string
    var mesas: seq<Pedido>
    var filtro: Filtro
    var q: string
    var modalVisible: bool
    var numeroMesa: string
    var ocupantes: string
    var nota: string
    var aviso: Option<AvisoHome>

    constructor (usuario: string)
      ensures this.usuario == usuario && mesas == [] && filtro == Todas && q == ""
      ensures !modalVisible && numeroMesa == "" && ocupantes == "" && nota == "" && aviso == None
    {
      this.usuario := usuario;
      mesas := [];
      filtro := Todas;
      q := "";
      modalVisible := false;
      numeroMesa := "";
      ocupantes := "";
      nota := "";
      aviso := None;
    }

    /** `fetchMesas`: on an error the list shown is kept. */
    method FetchMesas(todos: seq<Pedido>, fallo: bool)
      modifies this`mesas
      ensures mesas == if fallo then old(mesas) else MesasDe(todos, usuario)
    {
      if !fallo {
        mesas := MesasDe(todos, usuario);
      }
    }

    /** The filter chip labelled `chip`. */
    method Chip(chip: Filtro)
      modifies this`filtro
      ensures filtro == PulsarChip(old(filtro), chip)
    {
      filtro := PulsarChip(filtro, chip);
    }

    /** `agregarMesa`. An empty table number writes nothing. Otherwise one
        `Inconclusa` order is inserted for this waiter; on success the modal
        closes and its fields are cleared, on failure they stay as typed. */
    method AgregarMesa(db: Db, nuevoId: int, fecha: string, fallo: bool)
      requires nuevoId !in db.pedidos
      modifies this`modalVisible, this`numeroMesa, this`ocupantes, this`nota, this`aviso, db`pedidos
      ensures old(numeroMesa) == "" ==>
        db.pedidos == old(db.pedidos) && aviso == Some(IngresaNumero) &&
        unchanged(this`modalVisible, this`numeroMesa, this`ocupantes, this`nota)
      ensures old(numeroMesa) != "" ==>
        Guardada(db, FilaMesa(usuario, old(numeroMesa), old(ocupantes), old(nota), fecha), nuevoId, fallo)
    {
      if numeroMesa == "" {
        aviso := Some(IngresaNumero);
        return;
      }
      GuardarMesa(db, FilaMesa(usuario, numeroMesa, ocupantes, nota, fecha), nuevoId, fallo);
    }

    /** The effect of inserting `fila`: on failure the store, the modal and
        its fields are as they were and the failure is shown; on success
        the row is stored under the new id and the modal is closed and
        cleared. */
    twostate predicate Guardada(db: Db, fila: PedidoRow, nuevoId: int, fallo: bool)
      reads this, db
    {
      if fallo then
        db.pedidos == old(db.pedidos) && aviso == Some(NoSePudoAgregarMesa) &&
        modalVisible == old(modalVisible) && numeroMesa == old(numeroMesa) &&
        ocupantes == old(ocupantes) && nota == old(nota)
      else
        db.pedidos == old(db.pedidos)[nuevoId := fila] && aviso == old(aviso) &&
        !modalVisible && numeroMesa == "" && ocupantes == "" && nota == ""
    }

    method GuardarMesa(db: Db, fila: PedidoRow, nuevoId: int, fallo: bool)
      requires nuevoId !in db.pedidos
      modifies this`modalVisible, this`numeroMesa, this`ocupantes, this`nota, this`aviso, db`pedidos
      ensures Guardada(db, fila, nuevoId, fallo)
    {
      var id := db.InsertPedido(fila, nuevoId, fallo);
      if id.None? {
        aviso := Some(NoSePudoAgregarMesa);
      } else {
        modalVisible := false;
        numeroMesa := "";
        ocupantes := "";
        nota := "";
      }
    }
  }
}

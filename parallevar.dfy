/** The takeout screen of the web app: Mexican phone numbers, the takeout
    cart, creating a takeout order (validation, order row, line item rows,
    form reset, WhatsApp notice), the list of open takeout orders with its
    selection, and marking an order ready. */
module ParaLlevar {
  import opened Common
  import opened Orders
  import opened Store

  // ---------------------------------------------------------------------------
  // Phone numbers

  /** `String(t || "").replace(/[^\d]/g, "")`: the decimal digits of the
      text, in their order; a missing text has none. */
  function LimpiarTelefono(t: Option<string>): (r: string)
    ensures AllDigits(r)
    ensures IsSublist(r, t.GetOr(""))
  {
    var r := Filter(t.GetOr(""), IsDigit);
    FilterMiembros(t.GetOr(""), IsDigit);
    FilterSublist(t.GetOr(""), IsDigit);
    assert forall i :: 0 <= i < |r| ==> r[i] in r;
    r
  }

  /** Every digit of the text survives cleaning, and nothing else does. */
  lemma LimpiarTelefonoSii(t: Option<string>, c: char)
    ensures c in LimpiarTelefono(t) <==> c in t.GetOr("") && IsDigit(c)
  {
    FilterSii(t.GetOr(""), IsDigit, c);
  }

  /** Text made only of digits is its own cleaned form. */
  lemma LimpiarDigitos(s: string)
    requires AllDigits(s)
    ensures LimpiarTelefono(Some(s)) == s
  {
    FilterAll(s, IsDigit);
  }

  /** Cleaning a concatenation cleans each part. */
  lemma LimpiarConcat(a: string, b: string)
    ensures LimpiarTelefono(Some(a + b)) == LimpiarTelefono(Some(a)) + LimpiarTelefono(Some(b))
  {
    FilterAppend(a, b, IsDigit);
  }

  /** `normalizarTelMX`: no digits gives `""`; ten digits get the country
      code 52 in front; anything else, including twelve digits that already
      start with 52, is the cleaned digits unchanged. */
  function NormalizarTelMX(t: Option<string>): (r: string)
    ensures AllDigits(r)
    ensures r == "" <==> LimpiarTelefono(t) == ""
    ensures |LimpiarTelefono(t)| == 10 ==> r == "52" + LimpiarTelefono(t)
    ensures |LimpiarTelefono(t)| != 10 ==> r == LimpiarTelefono(t)
  {
    var tel := LimpiarTelefono(t);
    if tel == "" then ""
    else if |tel| == 10 then
      var r := "52" + tel;
      assert forall i :: 2 <= i < |r| ==> r[i] == tel[i - 2];
      r
    else if "52" <= tel && |tel| == 12 then tel
    else tel
  }

  /** `validarTel`: ten digits, or twelve digits starting with 52. */
  predicate ValidarTel(t: string) {
    var tel := LimpiarTelefono(Some(t));
    |tel| == 10 || ("52" <= tel && |tel| == 12)
  }

  /** A number is valid exactly when it normalises to twelve digits that
      start with the country code. */
  lemma ValidarTelSiiNormalizado(t: string)
    ensures ValidarTel(t) <==> |NormalizarTelMX(Some(t))| == 12 && "52" <= NormalizarTelMX(Some(t))
  {
    var tel := LimpiarTelefono(Some(t));
    if |tel| == 10 {
      assert ("52" + tel)[..2] == "52";
    }
  }

  /** Normalising a normalised number changes nothing. */
  lemma NormalizarIdempotente(t: Option<string>)
    ensures NormalizarTelMX(Some(NormalizarTelMX(t))) == NormalizarTelMX(t)
  {
    var n := NormalizarTelMX(t);
    LimpiarDigitos(n);
  }

  /** Twelve digits are already normal. */
  lemma NormalizarDoce(tel: string)
    requires AllDigits(tel) && |tel| == 12
    ensures NormalizarTelMX(Some(tel)) == tel
  {
    LimpiarDigitos(tel);
  }

  /** Ten local digits and the same digits typed with the country code
      normalise to the same number. */
  lemma NormalizarConPrefijo(t: string)
    requires |LimpiarTelefono(Some(t))| == 10
    ensures NormalizarTelMX(Some("52" + t)) == NormalizarTelMX(Some(t))
  {
    LimpiarConcat("52", t);
    LimpiarDigitos("52");
    var tel := LimpiarTelefono(Some(t));
    assert ("52" + tel)[..2] == "52";
  }

  // ---------------------------------------------------------------------------
  // The takeout cart

  /** An active dish of the catalogue, as the screen lists it. */
  datatype Platillo = Platillo(id: int, nombre: string, descripcion: Option<string>, precio: int, activo: Option<bool>)

  datatype CarritoItem = CarritoItem(platillo: Platillo, cantidad: int, nota: Option<string>)

  function PlatilloId(it: CarritoItem): int {
    it.platillo.id
  }

  predicate IdsUnicos(c: seq<CarritoItem>) {
    Distinct(c, PlatilloId)
  }

  predicate CantidadesPositivas(c: seq<CarritoItem>) {
    forall i :: 0 <= i < |c| ==> c[i].cantidad >= 1
  }

  /** `prev.findIndex(x => x.platillo.id === id)`: the first position of
      that dish, or -1. */
  function FindIndex(c: seq<CarritoItem>, id: int): (r: int)
    ensures -1 <= r < |c|
    ensures r >= 0 ==> c[r].platillo.id == id && forall j :: 0 <= j < r ==> c[j].platillo.id != id
    ensures r == -1 ==> forall j :: 0 <= j < |c| ==> c[j].platillo.id != id
  {
    if c == [] then -1
    else if c[0].platillo.id == id then 0
    else
      var k := FindIndex(c[1..], id);
      if k < 0 then -1 else k + 1
  }

  /** `addToCarrito(p)`: the first entry of that dish gains one unit, or the
      dish is appended with one unit and no note. */
  function AddToCarrito(prev: seq<CarritoItem>, p: Platillo): (r: seq<CarritoItem>)
    ensures FindIndex(prev, p.id) >= 0 ==>
      var k := FindIndex(prev, p.id);
      r == prev[k := prev[k].(cantidad := prev[k].cantidad + 1)]
    ensures FindIndex(prev, p.id) < 0 ==> r == prev + [CarritoItem(p, 1, None)]
  {
    var idx := FindIndex(prev, p.id);
    if idx >= 0 then prev[idx := prev[idx].(cantidad := prev[idx].cantidad + 1)]
    else prev + [CarritoItem(p, 1, None)]
  }

  function Max(a: int, b: int): int {
    if a >= b then a else b
  }

  /** `changeQty(id, delta)`: every entry of that dish moves by `delta` but
      never below one unit; other entries are untouched. */
  function ChangeQty(prev: seq<CarritoItem>, id: int, delta: int): (r: seq<CarritoItem>)
    ensures |r| == |prev|
    ensures forall i :: 0 <= i < |prev| && prev[i].platillo.id == id ==>
      r[i] == prev[i].(cantidad := Max(1, prev[i].cantidad + delta)) && r[i].cantidad >= 1
    ensures forall i :: 0 <= i < |prev| && prev[i].platillo.id != id ==> r[i] == prev[i]
  {
    seq(|prev|, i requires 0 <= i < |prev| =>
      if prev[i].platillo.id == id then prev[i].(cantidad := Max(1, prev[i].cantidad + delta)) else prev[i])
  }

  /** `removeItem(id)`: every entry of that dish goes; the others stay in order. */
  function RemoveItem(prev: seq<CarritoItem>, id: int): (r: seq<CarritoItem>)
    ensures forall x :: x in r <==> x in prev && x.platillo.id != id
    ensures IsSublist(r, prev)
  {
    var keep := (x: CarritoItem) => x.platillo.id != id;
    FilterMiembros(prev, keep);
    FilterSublist(prev, keep);
    Filter(prev, keep)
  }

  /** `removeItem(id)` keeps every entry of another dish as many times as
      it occurs, and none of that dish. */
  lemma RemoveItemCuenta(prev: seq<CarritoItem>, id: int, x: CarritoItem)
    ensures multiset(RemoveItem(prev, id))[x] == if x.platillo.id == id then 0 else multiset(prev)[x]
  {
    FilterCuenta(prev, (y: CarritoItem) => y.platillo.id != id, x);
  }

  /** `updateItemNota(id, nota)`: the entries of that dish get the note;
      other entries are untouched. */
  function UpdateItemNota(prev: seq<CarritoItem>, id: int, nota: string): (r: seq<CarritoItem>)
    ensures |r| == |prev|
    ensures forall i :: 0 <= i < |prev| && prev[i].platillo.id == id ==> r[i] == prev[i].(nota := Some(nota))
    ensures forall i :: 0 <= i < |prev| && prev[i].platillo.id != id ==> r[i] == prev[i]
  {
    seq(|prev|, i requires 0 <= i < |prev| =>
      if prev[i].platillo.id == id then prev[i].(nota := Some(nota)) else prev[i])
  }

  function ItemSubtotal(it: CarritoItem): int {
    it.cantidad * it.platillo.precio
  }

  /** `totalCarrito`: the sum of quantity times catalogue price. */
  function TotalCarrito(c: seq<CarritoItem>): (r: int)
    ensures c == [] ==> r == 0
    ensures |c| == 1 ==> r == c[0].cantidad * c[0].platillo.precio
  {
    SumCorto(c, ItemSubtotal);
    Sum(c, ItemSubtotal)
  }

  /** Adding a dish keeps one entry per dish and at least one unit per entry. */
  lemma AddToCarritoConserva(prev: seq<CarritoItem>, p: Platillo)
    requires IdsUnicos(prev) && CantidadesPositivas(prev)
    ensures IdsUnicos(AddToCarrito(prev, p)) && CantidadesPositivas(AddToCarrito(prev, p))
  {
    var a := AddToCarrito(prev, p);
    if FindIndex(prev, p.id) < 0 {
      forall i, j | 0 <= i < j < |a| ensures PlatilloId(a[i]) != PlatilloId(a[j]) {
        assert a[i] == prev[i];
        if j < |prev| {
          assert a[j] == prev[j];
        }
      }
    }
  }

  /** The other updaters keep the same two facts. */
  lemma ChangeQtyConserva(prev: seq<CarritoItem>, id: int, delta: int)
    requires IdsUnicos(prev) && CantidadesPositivas(prev)
    ensures IdsUnicos(ChangeQty(prev, id, delta)) && CantidadesPositivas(ChangeQty(prev, id, delta))
  {
    var ch := ChangeQty(prev, id, delta);
    assert forall i :: 0 <= i < |prev| ==> PlatilloId(ch[i]) == PlatilloId(prev[i]);
  }

  lemma RemoveItemConserva(prev: seq<CarritoItem>, id: int)
    requires IdsUnicos(prev) && CantidadesPositivas(prev)
    ensures IdsUnicos(RemoveItem(prev, id)) && CantidadesPositivas(RemoveItem(prev, id))
  {
    FilterKeepsDistinct(prev, (x: CarritoItem) => x.platillo.id != id, PlatilloId);
    var rm := RemoveItem(prev, id);
    forall i | 0 <= i < |rm| ensures rm[i].cantidad >= 1 {
      assert rm[i] in rm;
    }
  }

  lemma UpdateItemNotaConserva(prev: seq<CarritoItem>, id: int, nota: string)
    requires IdsUnicos(prev) && CantidadesPositivas(prev)
    ensures IdsUnicos(UpdateItemNota(prev, id, nota)) && CantidadesPositivas(UpdateItemNota(prev, id, nota))
  {
    var un := UpdateItemNota(prev, id, nota);
    assert forall i :: 0 <= i < |prev| ==> PlatilloId(un[i]) == PlatilloId(prev[i]);
  }

  /** Adding a dish raises the cart total by the price of the entry that
      gained the unit: the stored entry's price when the dish was there,
      the given dish's price otherwise. */
  lemma AddToCarritoTotal(prev: seq<CarritoItem>, p: Platillo)
    ensures var k := FindIndex(prev, p.id);
      TotalCarrito(AddToCarrito(prev, p)) == TotalCarrito(prev) + (if k >= 0 then prev[k].platillo.precio else p.precio)
  {
    var k := FindIndex(prev, p.id);
    if k >= 0 {
      var x := prev[k].(cantidad := prev[k].cantidad + 1);
      SumUpdate(prev, k, x, ItemSubtotal);
      assert ItemSubtotal(x) == ItemSubtotal(prev[k]) + prev[k].platillo.precio;
    } else {
      var x := CarritoItem(p, 1, None);
      SumCons(x, [], ItemSubtotal);
      SumAppend(prev, [x], ItemSubtotal);
    }
  }

  // ---------------------------------------------------------------------------
  // Creating a takeout order

  /** `s?.trim() || null`: the trimmed text, or nothing when it is missing
      or blank. */
  function NotaONull(s: Option<string>): (r: Option<string>)
    ensures r.Some? <==> s.Some? && !AllSpace(s.value)
    ensures r.Some? ==> r.value == Trim(s.value) && !IsSpace(r.value[0]) && !IsSpace(r.value[|r.value| - 1])
  {
    if s.None? || Trim(s.value) == "" then None else Some(Trim(s.value))
  }

  /** Why the form is refused, in the order the checks run. */
  datatype Rechazo = NombreVacio | TelefonoInvalido | CarritoVacio

  /** The three checks of `crearPedidoParaLlevar`: a blank name first, then
      an invalid phone, then an empty cart. */
  function ValidarPedido(nombre: string, telefono: string, carrito: seq<CarritoItem>): (r: Option<Rechazo>)
    ensures r == Some(NombreVacio) <==> AllSpace(nombre)
    ensures r == Some(TelefonoInvalido) <==> !AllSpace(nombre) && !ValidarTel(telefono)
    ensures r == Some(CarritoVacio) <==> !AllSpace(nombre) && ValidarTel(telefono) && carrito == []
    ensures r == None <==> !AllSpace(nombre) && ValidarTel(telefono) && carrito != []
  {
    if Trim(nombre) == "" then Some(NombreVacio)
    else if !ValidarTel(telefono) then Some(TelefonoInvalido)
    else if carrito == [] then Some(CarritoVacio)
    else None
  }

  /** The alerts the screen raises, by their title. */
  datatype Aviso =
    | DatosIncompletos | PedidoVacio | PermisoDenegado | NoSePudoCrear | PedidoCreado
    | ContactoFaltante | PedidoActualizado | NoSePudoMarcar

  function Titulo(a: Aviso): string {
    match a
    case DatosIncompletos => "Datos incompletos"
    case PedidoVacio => "Pedido vacío"
    case PermisoDenegado => "Permiso denegado"
    case NoSePudoCrear => "No se pudo crear el pedido"
    case PedidoCreado => "Pedido creado"
    case ContactoFaltante => "Contacto faltante"
    case PedidoActualizado => "Pedido actualizado"
    case NoSePudoMarcar => "No se pudo marcar como listo"
  }

  function AvisoRechazo(r: Rechazo): Aviso {
    match r
    case NombreVacio => DatosIncompletos
    case TelefonoInvalido => DatosIncompletos
    case CarritoVacio => PedidoVacio
  }

  /** The failure alert of a creation: a row-level security refusal is told
      apart by its message. */
  function AvisoFallo(mensajeError: string): Aviso {
    if Contains(Lower(mensajeError), "row-level security") then PermisoDenegado else NoSePudoCrear
  }

  /** The order row a takeout order is created with: already `Enviado`,
      no table, no occupants, the normalised phone and the trimmed name. */
  function FilaParaLlevar(usuario: Option<string>, nombre: string, telefono: string, nota: string): (r: PedidoRow)
    ensures r.estado == Enviado && r.tipoServicio == Some("llevar")
    ensures r.numeroMesa == None && r.ocupantes == None
    ensures r.nombreCliente == Some(Trim(nombre)) && r.telefono == Some(NormalizarTelMX(Some(telefono)))
    ensures r.nota == NotaONull(Some(nota)) && r.idMesero == usuario
  {
    PedidoRow(usuario, Some("llevar"), None, None, Some(Trim(nombre)), Some(NormalizarTelMX(Some(telefono))),
      NotaONull(Some(nota)), Enviado, None, None)
  }

  function DetalleDe(it: CarritoItem, pedidoId: int): DetalleRow {
    DetalleRow(pedidoId, it.platillo.id, it.cantidad, it.platillo.precio, it.cantidad * it.platillo.precio, NotaONull(it.nota))
  }

  /** One line item row per cart entry, in cart order, priced at the
      catalogue price with its subtotal. */
  function DetalleRows(c: seq<CarritoItem>, pedidoId: int): (r: seq<DetalleRow>)
    ensures |r| == |c|
    ensures forall i :: 0 <= i < |c| ==>
      r[i].pedidoId == pedidoId && r[i].platilloId == c[i].platillo.id && r[i].cantidad == c[i].cantidad &&
      r[i].precioUnitario == c[i].platillo.precio && r[i].subtotal == r[i].cantidad * r[i].precioUnitario &&
      r[i].nota == NotaONull(c[i].nota)
  {
    seq(|c|, i requires 0 <= i < |c| => DetalleDe(c[i], pedidoId))
  }

  function RowSubtotal(d: DetalleRow): int {
    d.subtotal
  }

  /** The subtotals written for an order add up to the cart total shown. */
  lemma DetalleRowsTotal(c: seq<CarritoItem>, pedidoId: int)
    ensures Sum(DetalleRows(c, pedidoId), RowSubtotal) == TotalCarrito(c)
  {
    SumSame(DetalleRows(c, pedidoId), RowSubtotal, c, ItemSubtotal);
  }

  // ---------------------------------------------------------------------------
  // The list of open takeout orders

  predicate EsParaLlevarAbierto(p: Pedido) {
    p.tipoServicio == Some("llevar") && (p.estado == Enviado || p.estado == Listo)
  }

  /** The query `.eq("tipo_servicio", "llevar").in("estado", ["Enviado", "Listo"])`. */
  function PedidosParaLlevar(listado: seq<Pedido>): (r: seq<Pedido>)
    ensures IsSublist(r, listado)
  {
    FilterSublist(listado, EsParaLlevarAbierto);
    Filter(listado, EsParaLlevarAbierto)
  }

  /** Exactly the open takeout orders of the store are listed. */
  lemma PedidosParaLlevarSii(listado: seq<Pedido>, p: Pedido)
    ensures p in PedidosParaLlevar(listado) <==> p in listado && EsParaLlevarAbierto(p)
  {
    FilterSii(listado, EsParaLlevarAbierto, p);
  }

  function CreatedAt(p: Pedido): int {
    p.createdAt
  }

  /** Newest first stays newest first. */
  lemma PedidosParaLlevarOrdenados(listado: seq<Pedido>)
    requires Descending(listado, CreatedAt)
    ensures Descending(PedidosParaLlevar(listado), CreatedAt)
  {
    FilterKeepsDescending(listado, EsParaLlevarAbierto, CreatedAt);
  }

  predicate Listado(ps: seq<Pedido>, id: int) {
    exists p :: p in ps && p.id == id
  }

  /** The selection after a refresh. The id is read as JavaScript does: a
      missing id and id 0 are both "no selection". With orders listed, the
      selection is a listed order, and a listed selection is kept; with none
      listed it is cleared, except that an id 0 is left as it was. */
  function Reconciliar(sel: Option<int>, ps: seq<Pedido>): (r: Option<int>)
    ensures ps != [] ==> r.Some? && Listado(ps, r.value)
    ensures ps == [] ==> r == (if sel == Some(0) then sel else None)
    ensures sel.Some? && sel.value != 0 && Listado(ps, sel.value) ==> r == sel
    ensures ps != [] && (sel.None? || sel.value == 0 || !Listado(ps, sel.value)) ==> r == Some(ps[0].id)
  {
    var vacia := sel.None? || sel.value == 0;
    if vacia && |ps| > 0 then
      assert ps[0] in ps;
      Some(ps[0].id)
    else if !vacia && !Listado(ps, sel.value) then
      if |ps| > 0 then
        assert ps[0] in ps;
        Some(ps[0].id)
      else None
    else sel
  }

  /** Refreshing twice with the same list selects the same order. */
  lemma ReconciliarIdempotente(sel: Option<int>, ps: seq<Pedido>)
    ensures Reconciliar(Reconciliar(sel, ps), ps) == Reconciliar(sel, ps)
  {
    var r := Reconciliar(sel, ps);
    if ps != [] && r.value == 0 {
      assert ps[0] in ps;
    }
  }

  // ---------------------------------------------------------------------------
  // The screen

  /** The two WhatsApp notices a customer gets about an order. */
  datatype Plantilla = Recibida | Terminada

  /** A WhatsApp message opened for a phone number about an order. */
  datatype Mensaje = Mensaje(telefono: string, plantilla: Plantilla, orden: int)

  function Texto(m: Mensaje): string {
    match m.plantilla
    case Recibida => "Tu orden #" + IntToString(m.orden) + " ha sido recibida y está en preparación."
    case Terminada => "Tu orden #" + IntToString(m.orden) + " ya está terminada. Disponible en mostrador."
  }

  /** `https://wa.me/<phone>?text=<message>`, before URL encoding. */
  function Enlace(m: Mensaje): string {
    "https://wa.me/" + m.telefono + "?text=" + Texto(m)
  }

  /** The writes of a takeout order, in order: ask for the signed-in user,
      insert the order row, insert its line item rows. The first failure
      stops the sequence. */
  method Registrar(db: Db, fila: PedidoRow, c: seq<CarritoItem>, nuevoId: int,
      falloUsuario: bool, falloPedido: bool, falloDetalles: bool) returns (ok: bool)
    requires nuevoId !in db.pedidos
    modifies db`pedidos, db`detalles
    ensures ok == (!falloUsuario && !falloPedido && !falloDetalles)
    ensures db.pedidos == if !falloUsuario && !falloPedido then old(db.pedidos)[nuevoId := fila] else old(db.pedidos)
    ensures db.detalles == if ok then old(db.detalles) + DetalleRows(c, nuevoId) else old(db.detalles)
  {
    if falloUsuario {
      return false;
    }
    var id := db.InsertPedido(fila, nuevoId, falloPedido);
    if id.None? {
      return false;
    }
    ok := db.InsertDetalles(DetalleRows(c, id.value), falloDetalles);
  }

  class PantallaParaLlevar {
    var pedidos: seq<Pedido>
    var seleccionado: Option<int>
    var nombre: string
    var telefono: string
    var notaPedido: string
    var busqueda: string
    var carrito: seq<CarritoItem>
    var creando: bool
    var cargando: bool
    var error: bool
    /** The alert on screen, if any. */
    var aviso: Option<Aviso>
    /** Every WhatsApp message opened, oldest first. */
    var whatsapp: seq<Mensaje>

    constructor ()
      ensures pedidos == [] && seleccionado == None && carrito == []
      ensures nombre == "" && telefono == "" && notaPedido == "" && busqueda == ""
      ensures !creando && cargando && !error && aviso == None && whatsapp == []
    {
      pedidos := [];
      seleccionado := None;
      nombre := "";
      telefono := "";
      notaPedido := "";
      busqueda := "";
      carrito := [];
      creando := false;
      cargando := true;
      error := false;
      aviso := None;
      whatsapp := [];
    }

    /** `fetchPedidos`: on an error the list is emptied and the selection
        kept; otherwise the open takeout orders are listed and the
        selection reconciled with them. */
    method FetchPedidos(listado: seq<Pedido>, fallo: bool)
      modifies this`pedidos, this`seleccionado, this`cargando, this`error
      ensures !cargando && error == fallo
      ensures fallo ==> pedidos == [] && seleccionado == old(seleccionado)
      ensures !fallo ==> (pedidos == PedidosParaLlevar(listado) &&
        seleccionado == Reconciliar(old(seleccionado), pedidos))
    {
      cargando := true;
      error := false;
      if fallo {
        error := true;
        pedidos := [];
      } else {
        pedidos := PedidosParaLlevar(listado);
        seleccionado := Reconciliar(seleccionado, pedidos);
      }
      cargando := false;
    }

    /** `abrirWhatsApp`: a number that normalises to nothing raises the
        missing-contact alert; any other opens the message. */
    method AbrirWhatsApp(tel: Option<string>, plantilla: Plantilla, orden: int)
      modifies this`aviso, this`whatsapp
      ensures NormalizarTelMX(tel) == "" ==> aviso == Some(ContactoFaltante) && whatsapp == old(whatsapp)
      ensures NormalizarTelMX(tel) != "" ==>
        aviso == old(aviso) && whatsapp == old(whatsapp) + [Mensaje(NormalizarTelMX(tel), plantilla, orden)]
    {
      var t := NormalizarTelMX(tel);
      if t == "" {
        aviso := Some(ContactoFaltante);
      } else {
        whatsapp := whatsapp + [Mensaje(t, plantilla, orden)];
      }
    }

    method AgregarAlCarrito(p: Platillo)
      modifies this`carrito
      ensures carrito == AddToCarrito(old(carrito), p)
    {
      carrito := AddToCarrito(carrito, p);
    }

    method CambiarCantidad(id: int, delta: int)
      modifies this`carrito
      ensures carrito == ChangeQty(old(carrito), id, delta)
    {
      carrito := ChangeQty(carrito, id, delta);
    }

    method QuitarDelCarrito(id: int)
      modifies this`carrito
      ensures carrito == RemoveItem(old(carrito), id)
    {
      carrito := RemoveItem(carrito, id);
    }

    method CambiarNota(id: int, nota: string)
      modifies this`carrito
      ensures carrito == UpdateItemNota(old(carrito), id, nota)
    {
      carrito := UpdateItemNota(carrito, id, nota);
    }

    /** `crearPedidoParaLlevar`. A refused form writes nothing and only
        raises its alert; a form that passes goes on to `Confirmar` with the
        normalised phone. */
    method CrearPedidoParaLlevar(db: Db, usuario: Option<string>, falloUsuario: bool, nuevoId: int,
        falloPedido: bool, falloDetalles: bool, mensajeError: string, listado: seq<Pedido>, falloListado: bool)
      requires nuevoId !in db.pedidos
      modifies this, db`pedidos, db`detalles
      ensures ValidarPedido(old(nombre), old(telefono), old(carrito)).Some? ==>
        (db.pedidos == old(db.pedidos) && db.detalles == old(db.detalles) && creando == old(creando) &&
         carrito == old(carrito) && whatsapp == old(whatsapp) &&
         nombre == old(nombre) && telefono == old(telefono) && notaPedido == old(notaPedido) &&
         busqueda == old(busqueda) && pedidos == old(pedidos) && seleccionado == old(seleccionado) &&
         cargando == old(cargando) && error == old(error) &&
         aviso == Some(AvisoRechazo(ValidarPedido(old(nombre), old(telefono), old(carrito)).value)))
      ensures ValidarPedido(old(nombre), old(telefono), old(carrito)) == None ==>
        Confirmado(db, FilaParaLlevar(usuario, old(nombre), old(telefono), old(notaPedido)), old(carrito),
          NormalizarTelMX(Some(old(telefono))), nuevoId, falloUsuario, falloPedido, falloDetalles, mensajeError,
          listado, falloListado)
    {
      var rechazo := ValidarPedido(nombre, telefono, carrito);
      if rechazo.Some? {
        aviso := Some(AvisoRechazo(rechazo.value));
        return;
      }
      var tel := NormalizarTelMX(Some(telefono));
      ValidarTelSiiNormalizado(telefono);
      Confirmar(db, FilaParaLlevar(usuario, nombre, telefono, notaPedido), tel, nuevoId,
        falloUsuario, falloPedido, falloDetalles, mensajeError, listado, falloListado);
    }

    /** The outcome of a creation whose form passed, with `fila` the order
        row, `c` the cart and `tel` the normalised phone: the writes are
        those of `Registrar`; the first failure keeps the form and raises
        the failure alert; full success clears the form and cart, refreshes
        the list, selects the new order and opens the customer's WhatsApp
        message. */
    twostate predicate Confirmado(db: Db, fila: PedidoRow, c: seq<CarritoItem>, tel: string, nuevoId: int,
        falloUsuario: bool, falloPedido: bool, falloDetalles: bool, mensajeError: string,
        listado: seq<Pedido>, falloListado: bool)
      reads this, db
    {
      var ok := !falloUsuario && !falloPedido && !falloDetalles;
      db.pedidos == (if !falloUsuario && !falloPedido then old(db.pedidos)[nuevoId := fila] else old(db.pedidos)) &&
      db.detalles == (if ok then old(db.detalles) + DetalleRows(c, nuevoId) else old(db.detalles)) &&
      !creando &&
      (!ok ==>
        aviso == Some(AvisoFallo(mensajeError)) &&
        nombre == old(nombre) && telefono == old(telefono) && notaPedido == old(notaPedido) &&
        busqueda == old(busqueda) && carrito == old(carrito) && pedidos == old(pedidos) &&
        seleccionado == old(seleccionado) && whatsapp == old(whatsapp) &&
        cargando == old(cargando) && error == old(error)) &&
      (ok ==>
        aviso == Some(PedidoCreado) &&
        nombre == "" && telefono == "" && notaPedido == "" && busqueda == "" && carrito == [] &&
        pedidos == (if falloListado then [] else PedidosParaLlevar(listado)) &&
        seleccionado == Some(nuevoId) && !cargando && error == falloListado &&
        whatsapp == old(whatsapp) + [Mensaje(tel, Recibida, nuevoId)])
    }

    /** The part of `crearPedidoParaLlevar` after the checks. */
    method Confirmar(db: Db, fila: PedidoRow, tel: string, nuevoId: int,
        falloUsuario: bool, falloPedido: bool, falloDetalles: bool, mensajeError: string,
        listado: seq<Pedido>, falloListado: bool)
      requires nuevoId !in db.pedidos
      requires AllDigits(tel) && |tel| == 12
      modifies this, db`pedidos, db`detalles
      ensures Confirmado(db, fila, old(carrito), tel, nuevoId, falloUsuario, falloPedido, falloDetalles, mensajeError,
        listado, falloListado)
    {
      creando := true;
      var ok := Registrar(db, fila, carrito, nuevoId, falloUsuario, falloPedido, falloDetalles);
      if !ok {
        aviso := Some(AvisoFallo(mensajeError));
      } else {
        NormalizarDoce(tel);
        TrasCrear(tel, nuevoId, listado, falloListado);
      }
      creando := false;
    }

    /** After a successful creation: clear the form and cart, refresh the
        list, select the new order, open the customer's notice. */
    method TrasCrear(tel: string, nuevoId: int, listado: seq<Pedido>, falloListado: bool)
      requires tel != "" && NormalizarTelMX(Some(tel)) == tel
      modifies this
      ensures nombre == "" && telefono == "" && notaPedido == "" && busqueda == "" && carrito == []
      ensures pedidos == (if falloListado then [] else PedidosParaLlevar(listado))
      ensures seleccionado == Some(nuevoId) && aviso == Some(PedidoCreado)
      ensures whatsapp == old(whatsapp) + [Mensaje(tel, Recibida, nuevoId)]
      ensures !cargando && error == falloListado && creando == old(creando)
    {
      nombre := "";
      telefono := "";
      notaPedido := "";
      busqueda := "";
      carrito := [];
      FetchPedidos(listado, falloListado);
      seleccionado := Some(nuevoId);
      AbrirWhatsApp(Some(tel), Recibida, nuevoId);
      aviso := Some(PedidoCreado);
    }

    /** `marcarListo`, offered only for an order at `Enviado`: one update
        writes `Listo` and the recomputed total. On success the list is
        refreshed and the customer's WhatsApp message opened; on failure
        nothing else happens but the alert. */
    method MarcarListo(db: Db, pedido: Pedido, fallo: bool, listado: seq<Pedido>, falloListado: bool)
      requires pedido.estado == Enviado
      modifies this`pedidos, this`seleccionado, this`cargando, this`error, this`aviso, this`whatsapp, db`pedidos
      ensures db.pedidos == if !fallo && pedido.id in old(db.pedidos)
        then old(db.pedidos)[pedido.id := ConEstado(old(db.pedidos)[pedido.id], Listo, Some(Total(pedido.detalles)))]
        else old(db.pedidos)
      ensures fallo ==> (aviso == Some(NoSePudoMarcar) &&
        whatsapp == old(whatsapp) && pedidos == old(pedidos) && seleccionado == old(seleccionado) &&
        cargando == old(cargando) && error == old(error))
      ensures !fallo ==> (aviso == Some(PedidoActualizado) &&
        pedidos == (if falloListado then [] else PedidosParaLlevar(listado)) &&
        seleccionado == (if falloListado then old(seleccionado) else Reconciliar(old(seleccionado), pedidos)) &&
        !cargando && error == falloListado &&
        whatsapp == old(whatsapp) + (if NormalizarTelMX(pedido.telefono) == "" then []
          else [Mensaje(NormalizarTelMX(pedido.telefono), Terminada, pedido.id)]))
    {
      var total := Total(pedido.detalles);
      var ok := db.UpdatePedido(pedido.id, Listo, Some(total), fallo);
      if !ok {
        aviso := Some(NoSePudoMarcar);
        return;
      }
      FetchPedidos(listado, falloListado);
      AbrirWhatsApp(pedido.telefono, Terminada, pedido.id);
      aviso := Some(PedidoActualizado);
    }
  }
}

/** The waiter's menu screen for one table: a modal to add a dish with a
    quantity and a note as a line item of the table's order, and the button
    that sends the order to the kitchen. */
module Menu {
  import opened Common
  import opened Orders
  import opened Store

  /** A dish of the catalogue as the menu lists it. */
  datatype PlatilloMenu = PlatilloMenu(id: int, nombre: string, precio: int)

  /** The table the screen was opened for: its order's id and number. */
  datatype Mesa = Mesa(id: int, numeroMesa: Option<int>)

  datatype AvisoMenu = SinMesa | NoSePudoAgregar | Agregado | NoSePudoEnviar | PedidoEnviado | ProblemaAlEnviar

  /** The minus button: one less, but never below one. */
  function CantidadMenos(c: int): (r: int)
    ensures r >= 1
    ensures c > 1 ==> r == c - 1
    ensures c <= 1 ==> r == 1
  {
    if c - 1 >= 1 then c - 1 else 1
  }

  /** The line item `confirmarAgregar` inserts: for the table's order, at
      the dish's catalogue price, with the subtotal of that price and the
      quantity, and the note as typed (blank when none was typed). */
  function DetalleMenu(mesa: Mesa, p: PlatilloMenu, cantidad: int, nota: string): (r: DetalleRow)
    ensures r.pedidoId == mesa.id && r.platilloId == p.id
    ensures r.cantidad == cantidad && r.precioUnitario == p.precio
    ensures r.subtotal == r.cantidad * r.precioUnitario
    ensures r.nota == Some(nota)
  {
    DetalleRow(mesa.id, p.id, cantidad, p.precio, p.precio * cantidad, Some(nota))
  }

  /** Read back as a line item, the inserted row adds its own subtotal to
      the order total. */
  lemma DetalleMenuTotal(mesa: Mesa, p: PlatilloMenu, cantidad: int, nota: string, ds: seq<Detalle>, id: int)
    ensures var row := DetalleMenu(mesa, p, cantidad, nota);
      Total(ds + [Detalle(id, row.cantidad, row.precioUnitario, row.nota, None)]) == Total(ds) + row.subtotal
  {
    var row := DetalleMenu(mesa, p, cantidad, nota);
    var d := Detalle(id, row.cantidad, row.precioUnitario, row.nota, None);
    TotalAppend(ds, [d]);
    assert [d][..0] == [];
  }

  class PantallaMenu {
    /** The table passed in when the screen was opened, if any. */
    const mesa: Option<Mesa>
    var modalVisible: bool
    var nota: string
    var cantidad: int
    var seleccionado: Option<PlatilloMenu>
    var aviso: Option<AvisoMenu>

    /** The quantity shown in the modal is at least one. */
    predicate Valid()
      reads this
    {
      cantidad >= 1
    }

    constructor (mesa: Option<Mesa>)
      ensures this.mesa == mesa && !modalVisible && nota == "" && cantidad == 1
      ensures seleccionado == None && aviso == None && Valid()
    {
      this.mesa := mesa;
      modalVisible := false;
      nota := "";
      cantidad := 1;
      seleccionado := None;
      aviso := None;
    }

    /** `abrirModalNota(item)`: select the dish, clear the note, reset the
        quantity to one, show the modal. */
    method AbrirModalNota(item: PlatilloMenu)
      modifies this
      ensures seleccionado == Some(item) && nota == "" && cantidad == 1 && modalVisible
      ensures aviso == old(aviso) && Valid()
    {
      seleccionado := Some(item);
      nota := "";
      cantidad := 1;
      modalVisible := true;
    }

    /** The minus button. */
    method Menos()
      requires Valid()
      modifies this`cantidad
      ensures cantidad == CantidadMenos(old(cantidad)) && Valid()
    {
      cantidad := CantidadMenos(cantidad);
    }

    /** The plus button: exactly one more. */
    method Mas()
      requires Valid()
      modifies this`cantidad
      ensures cantidad == old(cantidad) + 1 && Valid()
    {
      cantidad := cantidad + 1;
    }

    /** Typing in the note field. */
    method EscribirNota(texto: string)
      modifies this`nota
      ensures nota == texto
    {
      nota := texto;
    }

    /** The modal's cancel button. */
    method Cancelar()
      modifies this`modalVisible
      ensures !modalVisible
    {
      modalVisible := false;
    }

    /** `confirmarAgregar`. Without a table nothing is written and the modal
        stays open. Otherwise the selected dish, if any, is inserted as one
        line item, and the modal closes whether the insert succeeded or not. */
    method ConfirmarAgregar(db: Db, fallo: bool)
      modifies this`modalVisible, this`aviso, db`detalles
      ensures mesa.None? ==> db.detalles == old(db.detalles) && aviso == Some(SinMesa) && modalVisible == old(modalVisible)
      ensures mesa.Some? && seleccionado.None? ==>
        db.detalles == old(db.detalles) && aviso == old(aviso) && !modalVisible
      ensures mesa.Some? && seleccionado.Some? ==>
        db.detalles == (if fallo then old(db.detalles)
          else old(db.detalles) + [DetalleMenu(mesa.value, seleccionado.value, cantidad, nota)]) &&
        aviso == Some(if fallo then NoSePudoAgregar else Agregado) && !modalVisible
    {
      if mesa.None? {
        aviso := Some(SinMesa);
        return;
      }
      if seleccionado.Some? {
        var ok := db.InsertDetalles([DetalleMenu(mesa.value, seleccionado.value, cantidad, nota)], fallo);
        aviso := Some(if ok then Agregado else NoSePudoAgregar);
      }
      modalVisible := false;
    }

    /** `enviarPedido`: writes `Enviado` to the table's order whatever its
        status and however many line items it has. Without a table reading
        the table's id fails and only the general failure alert shows. */
    method EnviarPedido(db: Db, fallo: bool)
      modifies this`aviso, db`pedidos
      ensures mesa.None? ==> db.pedidos == old(db.pedidos) && aviso == Some(ProblemaAlEnviar)
      ensures mesa.Some? ==>
        db.pedidos == (if !fallo && mesa.value.id in old(db.pedidos)
          then old(db.pedidos)[mesa.value.id := ConEstado(old(db.pedidos)[mesa.value.id], Enviado, None)]
          else old(db.pedidos)) &&
        aviso == Some(if fallo then NoSePudoEnviar else PedidoEnviado)
    {
      if mesa.None? {
        aviso := Some(ProblemaAlEnviar);
        return;
      }
      var ok := db.UpdatePedido(mesa.value.id, Enviado, None, fallo);
      aviso := Some(if ok then PedidoEnviado else NoSePudoEnviar);
    }
  }
}

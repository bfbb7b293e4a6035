/** The hosted database, reduced to the tables the screens write and to the
    writes they issue. Each write is one statement and is all-or-nothing;
    whether the store answers with an error is not the app's choice, so it
    is a parameter (`fail`), as is the id the store gives a new row. */
module Store {
  import opened Common

  /** A `pedidos` row as a screen inserts it. `tipoServicio` and `fecha`
      are `None` when the insert leaves them to the column default. */
  datatype PedidoRow = PedidoRow(
    idMesero: Option<string>,
    tipoServicio: Option<string>,
    numeroMesa: Option<int>,
    ocupantes: Option<int>,
    nombreCliente: Option<string>,
    telefono: Option<string>,
    nota: Option<string>,
    estado: string,
    total: Option<int>,
    fecha: Option<string>)

  /** A `detalle_pedidos` row as a screen inserts it. */
  datatype DetalleRow = DetalleRow(
    pedidoId: int, platilloId: int, cantidad: int, precioUnitario: int, subtotal: int, nota: Option<string>)

  /** A `ventas_diarias` row: one sold line item. */
  datatype Venta = Venta(
    pedidoId: int, numeroMesa: Option<int>, platillo: string, descripcion: string,
    cantidad: int, precioUnitario: int, fecha: string)

  /** A `platillos` row: a dish of the catalogue. */
  datatype PlatilloRow = PlatilloRow(
    nombre: string, descripcion: string, precio: int, activo: bool, imagenUrl: Option<string>)

  /** `update({ estado, total? })` applied to one order row. */
  function ConEstado(row: PedidoRow, estado: string, total: Option<int>): (r: PedidoRow)
    ensures r.estado == estado
    ensures r.total == (if total.Some? then total else row.total)
    ensures r == row.(estado := r.estado, total := r.total)
  {
    row.(estado := estado, total := if total.Some? then total else row.total)
  }

  class Db {
    var pedidos: map<int, PedidoRow>
    var detalles: seq<DetalleRow>
    var ventas: seq<Venta>
    var platillos: map<int, PlatilloRow>

    constructor (pedidos: map<int, PedidoRow>, detalles: seq<DetalleRow>, ventas: seq<Venta>, platillos: map<int, PlatilloRow>)
      ensures this.pedidos == pedidos && this.detalles == detalles
      ensures this.ventas == ventas && this.platillos == platillos
    {
      this.pedidos := pedidos;
      this.detalles := detalles;
      this.ventas := ventas;
      this.platillos := platillos;
    }

    /** `from("pedidos").insert(row).select("id")`: the new row gets the id
        the store chose, or nothing is written. */
    method InsertPedido(row: PedidoRow, newId: int, fail: bool) returns (id: Option<int>)
      requires newId !in pedidos
      modifies this`pedidos
      ensures id == if fail then None else Some(newId)
      ensures pedidos == if fail then old(pedidos) else old(pedidos)[newId := row]
    {
      if fail {
        id := None;
      } else {
        pedidos := pedidos[newId := row];
        id := Some(newId);
      }
    }

    /** `from("pedidos").update({ estado, total? }).eq("id", id)`: no row
        with that id is not an error, and changes nothing. */
    method UpdatePedido(id: int, estado: string, total: Option<int>, fail: bool) returns (ok: bool)
      modifies this`pedidos
      ensures ok == !fail
      ensures pedidos == if !fail && id in old(pedidos)
        then old(pedidos)[id := ConEstado(old(pedidos)[id], estado, total)]
        else old(pedidos)
    {
      ok := !fail;
      if ok && id in pedidos {
        pedidos := pedidos[id := ConEstado(pedidos[id], estado, total)];
      }
    }

    /** `from("detalle_pedidos").insert(rows)`. */
    method InsertDetalles(rows: seq<DetalleRow>, fail: bool) returns (ok: bool)
      modifies this`detalles
      ensures ok == !fail
      ensures detalles == if fail then old(detalles) else old(detalles) + rows
    {
      ok := !fail;
      if ok {
        detalles := detalles + rows;
      }
    }

    /** `from("ventas_diarias").insert(rows)`. */
    method InsertVentas(rows: seq<Venta>, fail: bool) returns (ok: bool)
      modifies this`ventas
      ensures ok == !fail
      ensures ventas == if fail then old(ventas) else old(ventas) + rows
    {
      ok := !fail;
      if ok {
        ventas := ventas + rows;
      }
    }

    /** `from("platillos").insert([row])`. */
    method InsertPlatillo(row: PlatilloRow, newId: int, fail: bool) returns (ok: bool)
      requires newId !in platillos
      modifies this`platillos
      ensures ok == !fail
      ensures platillos == if fail then old(platillos) else old(platillos)[newId := row]
    {
      ok := !fail;
      if ok {
        platillos := platillos[newId := row];
      }
    }

    /** `from("platillos").update(row).eq("id", id)`. */
    method UpdatePlatillo(id: int, row: PlatilloRow, fail: bool) returns (ok: bool)
      modifies this`platillos
      ensures ok == !fail
      ensures platillos == if !fail && id in old(platillos) then old(platillos)[id := row] else old(platillos)
    {
      ok := !fail;
      if ok && id in platillos {
        platillos := platillos[id := row];
      }
    }

    /** `from("platillos").delete().eq("id", id)`. */
    method DeletePlatillo(id: int, fail: bool) returns (ok: bool)
      modifies this`platillos
      ensures ok == !fail
      ensures platillos == if fail then old(platillos) else old(platillos) - {id}
    {
      ok := !fail;
      if ok {
        platillos := platillos - {id};
      }
    }
  }
}

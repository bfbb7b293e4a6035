/** The waiter app's shared cart store: a list of dishes with a quantity and
    an optional note each. Every action replaces the list with a new one
    computed from the old, so each is a function here, and `CarritoStore`
    holds the list and applies them. */
module Carrito {
  import opened Common

  /** A cart entry: the dish fields plus `cantidad` and an optional `nota`. */
  datatype Item = Item(
    id: int, nombre: string, precio: int, descripcion: Option<string>, cantidad: int, nota: Option<string>)

  /** `(c || 1)`: a quantity of 0 counts as 1. */
  function OrOne(c: int): (r: int)
    ensures r != 0
    ensures c != 0 ==> r == c
  {
    if c == 0 then 1 else c
  }

  function ItemId(x: Item): int {
    x.id
  }

  /** No two entries share a dish id. */
  predicate IdsUnicos(cart: seq<Item>) {
    Distinct(cart, ItemId)
  }

  predicate Existe(cart: seq<Item>, id: int) {
    exists i :: 0 <= i < |cart| && cart[i].id == id
  }

  /** `cart.map(x => x.id === id ? f(x) : x)`. */
  function Actualizar(cart: seq<Item>, id: int, f: Item -> Item): (r: seq<Item>)
    ensures |r| == |cart|
    ensures forall i :: 0 <= i < |cart| ==> r[i] == if cart[i].id == id then f(cart[i]) else cart[i]
  {
    seq(|cart|, i requires 0 <= i < |cart| => if cart[i].id == id then f(cart[i]) else cart[i])
  }

  /** A function that keeps the id keeps the ids of the whole list. */
  lemma ActualizarConservaIds(cart: seq<Item>, id: int, f: Item -> Item)
    requires forall x :: f(x).id == x.id
    ensures forall i :: 0 <= i < |cart| ==> Actualizar(cart, id, f)[i].id == cart[i].id
    ensures IdsUnicos(cart) ==> IdsUnicos(Actualizar(cart, id, f))
  {
  }

  function Incrementar(x: Item): Item {
    x.(cantidad := OrOne(x.cantidad) + 1)
  }

  function Decrementar(x: Item): Item {
    x.(cantidad := OrOne(x.cantidad) - 1)
  }

  // ---------------------------------------------------------------------------
  // Actions

  /** `agregar(p)`: a dish already in the cart has its quantity raised by
      one (a quantity of 0 counting as 1) and nothing else changes; a new
      dish is appended with quantity 1 whatever quantity `p` carried. */
  function Agregar(cart: seq<Item>, p: Item): (r: seq<Item>)
    ensures Existe(cart, p.id) ==> |r| == |cart| && forall i :: 0 <= i < |cart| ==>
      r[i] == if cart[i].id == p.id then cart[i].(cantidad := OrOne(cart[i].cantidad) + 1) else cart[i]
    ensures !Existe(cart, p.id) ==> |r| == |cart| + 1 && r[..|cart|] == cart && r[|cart|] == p.(cantidad := 1)
  {
    if Existe(cart, p.id) then Actualizar(cart, p.id, Incrementar) else cart + [p.(cantidad := 1)]
  }

  /** `eliminar(id)`: every entry of that dish goes, the others stay in order. */
  function Eliminar(cart: seq<Item>, id: int): (r: seq<Item>)
    ensures !Existe(r, id)
    ensures forall x :: x in r <==> x in cart && x.id != id
    ensures IsSublist(r, cart)
  {
    var keep := (x: Item) => x.id != id;
    var r := Filter(cart, keep);
    FilterMiembros(cart, keep);
    FilterSublist(cart, keep);
    assert forall i :: 0 <= i < |r| ==> r[i] in r;
    r
  }

  /** `eliminar(id)` keeps every entry of another dish as many times as
      it occurs, and none of that dish. */
  lemma EliminarCuenta(cart: seq<Item>, id: int, x: Item)
    ensures multiset(Eliminar(cart, id))[x] == if x.id == id then 0 else multiset(cart)[x]
  {
    FilterCuenta(cart, (y: Item) => y.id != id, x);
  }

  /** `aumentar(id)`: the entries of that dish gain one unit (0 counting as
      1); every other entry is untouched. */
  function Aumentar(cart: seq<Item>, id: int): (r: seq<Item>)
    ensures |r| == |cart|
    ensures forall i :: 0 <= i < |cart| && cart[i].id == id ==>
      r[i] == cart[i].(cantidad := OrOne(cart[i].cantidad) + 1)
    ensures forall i :: 0 <= i < |cart| && cart[i].id != id ==> r[i] == cart[i]
  {
    Actualizar(cart, id, Incrementar)
  }

  /** `disminuir(id)` as the store writes it: the entries of that dish lose
      one unit (0 counting as 1), then entries are kept when `(cantidad || 1)
      > 0`. Because a quantity of 0 counts as 1 in that test, an entry that
      falls from 1 to 0 stays in the cart; only negative quantities go. */
  function Disminuir(cart: seq<Item>, id: int): (r: seq<Item>)
    ensures forall x :: x in r ==> x.cantidad >= 0
    ensures forall i :: 0 <= i < |cart| && cart[i].id != id && cart[i].cantidad >= 0 ==> cart[i] in r
    ensures forall i :: 0 <= i < |cart| && cart[i].id == id && cart[i].cantidad >= 0 ==>
      cart[i].(cantidad := OrOne(cart[i].cantidad) - 1) in r
    ensures IsSublist(r, Actualizar(cart, id, Decrementar))
  {
    var m := Actualizar(cart, id, Decrementar);
    var keep := (x: Item) => OrOne(x.cantidad) > 0;
    var r := Filter(m, keep);
    FilterMiembros(m, keep);
    FilterSublist(m, keep);
    assert forall i :: 0 <= i < |cart| ==> m[i] in m;
    r
  }

  /** An entry at quantity 1 is not removed by `disminuir`: it stays at 0. */
  lemma DisminuirDejaCero(x: Item)
    requires x.cantidad == 1
    ensures Disminuir([x], x.id) == [x.(cantidad := 0)]
  {
    var r := Disminuir([x], x.id);
    assert x.(cantidad := 0) in r;
    assert |r| <= 1;
  }

  /** And once at 0 it stays at 0 however often `disminuir` is pressed. */
  lemma DisminuirDesdeCero(x: Item)
    requires x.cantidad == 0
    ensures Disminuir([x], x.id) == [x]
  {
    var r := Disminuir([x], x.id);
    assert x in r;
    assert |r| <= 1;
  }

  /** `disminuir(id)` as its comment describes it: an entry whose quantity
      reaches 0 leaves the cart, so no entry with a quantity below 1
      remains. */
  function DisminuirCorregido(cart: seq<Item>, id: int): (r: seq<Item>)
    ensures forall x :: x in r ==> x.cantidad > 0
    ensures forall i :: 0 <= i < |cart| && cart[i].id != id && cart[i].cantidad > 0 ==> cart[i] in r
    ensures forall i :: 0 <= i < |cart| && cart[i].id == id && cart[i].cantidad > 1 ==>
      cart[i].(cantidad := cart[i].cantidad - 1) in r
    ensures IsSublist(r, Actualizar(cart, id, Decrementar))
  {
    var m := Actualizar(cart, id, Decrementar);
    var keep := (x: Item) => x.cantidad > 0;
    var r := Filter(m, keep);
    FilterMiembros(m, keep);
    FilterSublist(m, keep);
    assert forall i :: 0 <= i < |cart| ==> m[i] in m;
    r
  }

  /** With the correction, an entry at quantity 1 leaves the cart. */
  lemma DisminuirCorregidoQuita(x: Item)
    requires x.cantidad == 1
    ensures DisminuirCorregido([x], x.id) == []
  {
    var r := DisminuirCorregido([x], x.id);
    assert x.(cantidad := 0) !in r;
  }

  /** `actualizarCantidad(id, n)`: the entries of that dish get quantity `n`
      exactly as given (no lower bound); every other entry is untouched. */
  function ActualizarCantidad(cart: seq<Item>, id: int, n: int): (r: seq<Item>)
    ensures |r| == |cart|
    ensures forall i :: 0 <= i < |cart| && cart[i].id == id ==> r[i] == cart[i].(cantidad := n)
    ensures forall i :: 0 <= i < |cart| && cart[i].id != id ==> r[i] == cart[i]
  {
    Actualizar(cart, id, (x: Item) => x.(cantidad := n))
  }

  /** `actualizarNota(id, nota)`: the entries of that dish get that note;
      every other entry is untouched. */
  function ActualizarNota(cart: seq<Item>, id: int, nota: string): (r: seq<Item>)
    ensures |r| == |cart|
    ensures forall i :: 0 <= i < |cart| && cart[i].id == id ==> r[i] == cart[i].(nota := Some(nota))
    ensures forall i :: 0 <= i < |cart| && cart[i].id != id ==> r[i] == cart[i]
  {
    Actualizar(cart, id, (x: Item) => x.(nota := Some(nota)))
  }

  // ---------------------------------------------------------------------------
  // Properties

  /** Adding a dish keeps dish ids unique and leaves exactly one entry for it. */
  lemma AgregarConservaIdsUnicos(cart: seq<Item>, p: Item)
    requires IdsUnicos(cart)
    ensures IdsUnicos(Agregar(cart, p))
    ensures Existe(Agregar(cart, p), p.id)
  {
    var r := Agregar(cart, p);
    if Existe(cart, p.id) {
      ActualizarConservaIds(cart, p.id, Incrementar);
    } else {
      assert r[|cart|].id == p.id;
      forall i, j | 0 <= i < j < |r| ensures r[i].id != r[j].id {
        if j < |cart| {
          assert r[i] == cart[i] && r[j] == cart[j];
          assert ItemId(cart[i]) != ItemId(cart[j]);
        } else {
          assert r[i] == cart[i];
        }
      }
    }
  }

  /** `agregar(p)` pressed `n` times from a cart without that dish. */
  function AgregarVeces(cart: seq<Item>, p: Item, n: nat): seq<Item> {
    if n == 0 then cart else Agregar(AgregarVeces(cart, p, n - 1), p)
  }

  /** Adding a new dish `n` times appends a single entry with quantity `n`. */
  lemma {:induction false} AgregarVecesAcumula(cart: seq<Item>, p: Item, n: nat)
    requires n >= 1 && !Existe(cart, p.id)
    ensures AgregarVeces(cart, p, n) == cart + [p.(cantidad := n)]
  {
    if n > 1 {
      AgregarVecesAcumula(cart, p, n - 1);
      AgregarAlUltimo(cart, p, n - 1);
    }
  }

  /** Adding a dish whose only entry is the last one raises that entry. */
  lemma AgregarAlUltimo(cart: seq<Item>, p: Item, k: int)
    requires k >= 1 && !Existe(cart, p.id)
    ensures Agregar(cart + [p.(cantidad := k)], p) == cart + [p.(cantidad := k + 1)]
  {
    var s := cart + [p.(cantidad := k)];
    assert s[|cart|].id == p.id;
    var r := Agregar(s, p);
    forall i | 0 <= i < |cart| ensures r[i] == cart[i] {
      assert s[i] == cart[i];
    }
  }

  /** Removing, decreasing, increasing and the two updaters keep ids unique. */
  lemma AccionesConservanIdsUnicos(cart: seq<Item>, id: int, n: int, nota: string)
    requires IdsUnicos(cart)
    ensures IdsUnicos(Eliminar(cart, id))
    ensures IdsUnicos(Aumentar(cart, id))
    ensures IdsUnicos(Disminuir(cart, id))
    ensures IdsUnicos(DisminuirCorregido(cart, id))
    ensures IdsUnicos(ActualizarCantidad(cart, id, n))
    ensures IdsUnicos(ActualizarNota(cart, id, nota))
  {
    FilterKeepsDistinct(cart, (x: Item) => x.id != id, ItemId);
    ActualizarConservaIds(cart, id, Incrementar);
    ActualizarConservaIds(cart, id, Decrementar);
    var m := Actualizar(cart, id, Decrementar);
    FilterKeepsDistinct(m, (x: Item) => OrOne(x.cantidad) > 0, ItemId);
    FilterKeepsDistinct(m, (x: Item) => x.cantidad > 0, ItemId);
    ActualizarConservaIds(cart, id, (x: Item) => x.(cantidad := n));
    ActualizarConservaIds(cart, id, (x: Item) => x.(nota := Some(nota)));
  }

  /** The store: one cart, starting empty, replaced by each action. */
  class CarritoStore {
    var carrito: seq<Item>

    /** Dish ids in the cart are unique. */
    predicate Valid()
      reads this
    {
      IdsUnicos(carrito)
    }

    constructor ()
      ensures carrito == [] && Valid()
    {
      carrito := [];
    }

    method AgregarItem(p: Item)
      requires Valid()
      modifies this
      ensures carrito == Agregar(old(carrito), p) && Valid()
    {
      AgregarConservaIdsUnicos(carrito, p);
      carrito := Agregar(carrito, p);
    }

    method EliminarItem(id: int)
      requires Valid()
      modifies this
      ensures carrito == Eliminar(old(carrito), id) && Valid()
    {
      AccionesConservanIdsUnicos(carrito, id, 0, "");
      carrito := Eliminar(carrito, id);
    }

    method Limpiar()
      modifies this
      ensures carrito == [] && Valid()
    {
      carrito := [];
    }

    method AumentarItem(id: int)
      requires Valid()
      modifies this
      ensures carrito == Aumentar(old(carrito), id) && Valid()
    {
      AccionesConservanIdsUnicos(carrito, id, 0, "");
      carrito := Aumentar(carrito, id);
    }

    /** The minus button, as `disminuir` is written: an entry decremented
        from 1 stays in the cart at 0 (see `DisminuirDejaCero`). */
    method DisminuirItem(id: int)
      requires Valid()
      modifies this
      ensures carrito == Disminuir(old(carrito), id) && Valid()
    {
      AccionesConservanIdsUnicos(carrito, id, 0, "");
      carrito := Disminuir(carrito, id);
    }

    method ActualizarCantidadItem(id: int, n: int)
      requires Valid()
      modifies this
      ensures carrito == ActualizarCantidad(old(carrito), id, n) && Valid()
    {
      AccionesConservanIdsUnicos(carrito, id, n, "");
      carrito := ActualizarCantidad(carrito, id, n);
    }

    method ActualizarNotaItem(id: int, nota: string)
      requires Valid()
      modifies this
      ensures carrito == ActualizarNota(old(carrito), id, nota) && Valid()
    {
      AccionesConservanIdsUnicos(carrito, id, 0, nota);
      carrito := ActualizarNota(carrito, id, nota);
    }
  }
}

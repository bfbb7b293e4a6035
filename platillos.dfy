/** The catalogue screen: the list of dishes, a form that adds a dish or
    edits the one chosen, and deletion. Saving is guarded by a flag so that
    a second click while a save is under way does nothing. */
module Platillos {
  import opened Common
  import opened Store

  /** A dish as the form holds it; `id` is absent for a dish not yet saved. */
  datatype Platillo = Platillo(
    id: Option<int>, nombre: string, descripcion: string, precio: int, activo: bool, imagenUrl: Option<string>)

  datatype AvisoPlatillos =
    | DatosInvalidos | NoSeGuardo | NoSeSubioImagen | PlatilloActualizado | PlatilloAgregado
    | PlatilloEliminado | NoSeElimino

  /** The empty form: blank name and description, price 0, active, blank
      image. */
  const FormVacio: Platillo := Platillo(None, "", "", 0, true, Some(""))

  /** The form is refused when the name is blank or the price is not
      positive. */
  predicate FormValido(p: Platillo) {
    p.nombre != "" && p.precio > 0
  }

  /** `nuevo.imagen_url || null`, replaced by the uploaded file's address
      when a file was chosen. */
  function ImagenFinal(actual: Option<string>, subida: Option<string>): (r: Option<string>)
    ensures subida.Some? ==> r == subida
    ensures subida.None? && actual.Some? && actual.value != "" ==> r == actual
    ensures subida.None? && (actual.None? || actual.value == "") ==> r.None?
  {
    if subida.Some? then subida
    else if actual.Some? && actual.value != "" then actual
    else None
  }

  /** The row written for the form. */
  function DatosAGuardar(p: Platillo, imagen: Option<string>): (r: PlatilloRow)
    ensures r.nombre == p.nombre && r.descripcion == p.descripcion && r.precio == p.precio
    ensures r.activo == p.activo && r.imagenUrl == imagen
  {
    PlatilloRow(p.nombre, p.descripcion, p.precio, p.activo, imagen)
  }

  /** `editando?.id`: an update needs a record with a non-zero id. */
  predicate EditaConId(editando: Option<Platillo>) {
    editando.Some? && editando.value.id.Some? && editando.value.id.value != 0
  }

  /** `platillos.find((x) => x.id === id) || null`. */
  function Buscar(ps: seq<Platillo>, id: int): (r: Option<Platillo>)
    ensures r.Some? ==> r.value in ps && r.value.id == Some(id)
    ensures r.None? <==> forall p :: p in ps ==> p.id != Some(id)
  {
    if ps == [] then None
    else if ps[0].id == Some(id) then Some(ps[0])
    else Buscar(ps[1..], id)
  }

  class PantallaPlatillos {
    var platillos: seq<Platillo>
    var nuevo: Platillo
    var editando: Option<Platillo>
    /** The image file chosen in the form, by name, if any. */
    var archivo: Option<string>
    var seleccionadoId: Option<int>
    var guardando: bool
    var aviso: Option<AvisoPlatillos>

    constructor ()
      ensures platillos == [] && nuevo == FormVacio && editando == None && archivo == None
      ensures seleccionadoId == None && !guardando && aviso == None
    {
      platillos := [];
      nuevo := FormVacio;
      editando := None;
      archivo := None;
      seleccionadoId := None;
      guardando := false;
      aviso := None;
    }

    /** `fetchPlatillos`: on an error the list shown is kept. */
    method FetchPlatillos(lista: seq<Platillo>, fallo: bool)
      modifies this`platillos
      ensures platillos == if fallo then old(platillos) else lista
    {
      if !fallo {
        platillos := lista;
      }
    }

    /** The first part of `handleGuardar`, up to its first wait: while a
        save is under way it does nothing; an invalid form is refused before
        the flag is touched; otherwise the flag is set and the save goes on. */
    method ComenzarGuardar() returns (sigue: bool)
      modifies this`guardando, this`aviso
      ensures old(guardando) ==> !sigue && guardando && aviso == old(aviso)
      ensures !old(guardando) && !FormValido(nuevo) ==> !sigue && !guardando && aviso == Some(DatosInvalidos)
      ensures !old(guardando) && FormValido(nuevo) ==> sigue && guardando && aviso == old(aviso)
    {
      if guardando {
        return false;
      }
      if !FormValido(nuevo) {
        aviso := Some(DatosInvalidos);
        return false;
      }
      guardando := true;
      sigue := true;
    }

    /** The outcome of the rest of `handleGuardar`. The chosen file is
        uploaded first (`subida` is the address the storage gives it, none
        when the upload fails); a failed upload writes nothing. Then the
        dish is updated when an edited record with an id is open, inserted
        otherwise. A failed write changes nothing else; after a successful
        one the form, the file, the edit and the selection are all cleared
        and the list is reloaded. The flag is down in every case. */
    twostate predicate Guardado(db: Db, subida: Option<string>, nuevoId: int, fallo: bool,
                                lista: seq<Platillo>, falloLista: bool)
      reads this, db
    {
      var subio := old(archivo).None? || subida.Some?;
      var fila := DatosAGuardar(old(nuevo), ImagenFinal(old(nuevo).imagenUrl, if old(archivo).Some? then subida else None));
      var igual := nuevo == old(nuevo) && editando == old(editando) && archivo == old(archivo) &&
        seleccionadoId == old(seleccionadoId) && platillos == old(platillos);
      !guardando &&
      (!subio ==> db.platillos == old(db.platillos) && aviso == Some(NoSeSubioImagen) && igual) &&
      (subio ==>
        db.platillos == (if fallo then old(db.platillos)
          else if EditaConId(old(editando)) then
            (if old(editando).value.id.value in old(db.platillos)
             then old(db.platillos)[old(editando).value.id.value := fila] else old(db.platillos))
          else old(db.platillos)[nuevoId := fila])) &&
      (subio && fallo ==> aviso == Some(NoSeGuardo) && igual) &&
      (subio && !fallo ==>
        aviso == Some(if old(editando).Some? then PlatilloActualizado else PlatilloAgregado) &&
        nuevo == FormVacio && editando == None && archivo == None && seleccionadoId == None &&
        platillos == (if falloLista then old(platillos) else lista))
    }

    /** The rest of `handleGuardar`, after the checks and with the flag set. */
    method TerminarGuardar(db: Db, subida: Option<string>, nuevoId: int, fallo: bool,
                           lista: seq<Platillo>, falloLista: bool)
      requires guardando && FormValido(nuevo)
      requires nuevoId !in db.platillos
      modifies this, db`platillos
      ensures Guardado(db, subida, nuevoId, fallo, lista, falloLista)
    {
      var imagen := nuevo.imagenUrl;
      if imagen == Some("") {
        imagen := None;
      }
      if archivo.Some? {
        if subida.None? {
          aviso := Some(NoSeSubioImagen);
          guardando := false;
          return;
        }
        imagen := subida;
      }
      var fila := DatosAGuardar(nuevo, imagen);
      var ok;
      if EditaConId(editando) {
        ok := db.UpdatePlatillo(editando.value.id.value, fila, fallo);
      } else {
        ok := db.InsertPlatillo(fila, nuevoId, fallo);
      }
      if !ok {
        aviso := Some(NoSeGuardo);
        guardando := false;
        return;
      }
      aviso := Some(if editando.Some? then PlatilloActualizado else PlatilloAgregado);
      nuevo := FormVacio;
      archivo := None;
      editando := None;
      seleccionadoId := None;
      FetchPlatillos(lista, falloLista);
      guardando := false;
    }

    /** `handleGuardar` from click to finish: a click while a save is under
        way changes nothing at all; a refused form writes nothing and only
        raises its alert; a valid form is saved as `Guardado` describes, and
        the flag is down again when the save ends. */
    method Guardar(db: Db, subida: Option<string>, nuevoId: int, fallo: bool,
                   lista: seq<Platillo>, falloLista: bool)
      requires nuevoId !in db.platillos
      modifies this, db`platillos
      ensures old(guardando) ==> unchanged(this) && db.platillos == old(db.platillos)
      ensures !old(guardando) && !FormValido(old(nuevo)) ==>
        db.platillos == old(db.platillos) && aviso == Some(DatosInvalidos) && !guardando &&
        nuevo == old(nuevo) && editando == old(editando) && archivo == old(archivo) &&
        seleccionadoId == old(seleccionadoId) && platillos == old(platillos)
      ensures !old(guardando) && FormValido(old(nuevo)) ==> Guardado(db, subida, nuevoId, fallo, lista, falloLista)
    {
      var sigue := ComenzarGuardar();
      if sigue {
        TerminarGuardar(db, subida, nuevoId, fallo, lista, falloLista);
      }
    }

    /** `handleEliminar`: nothing happens unless the user confirms. After a
        successful delete the selection is cleared only when it was the
        deleted dish, and the list is reloaded. */
    method Eliminar(db: Db, id: int, confirmado: bool, fallo: bool, lista: seq<Platillo>, falloLista: bool)
      modifies this`aviso, this`seleccionadoId, this`platillos, db`platillos
      ensures !confirmado ==>
        db.platillos == old(db.platillos) && aviso == old(aviso) &&
        seleccionadoId == old(seleccionadoId) && platillos == old(platillos)
      ensures confirmado && fallo ==>
        db.platillos == old(db.platillos) && aviso == Some(NoSeElimino) &&
        seleccionadoId == old(seleccionadoId) && platillos == old(platillos)
      ensures confirmado && !fallo ==>
        db.platillos == old(db.platillos) - {id} && aviso == Some(PlatilloEliminado) &&
        seleccionadoId == (if old(seleccionadoId) == Some(id) then None else old(seleccionadoId)) &&
        platillos == (if falloLista then old(platillos) else lista)
    {
      if !confirmado {
        return;
      }
      var ok := db.DeletePlatillo(id, fallo);
      if !ok {
        aviso := Some(NoSeElimino);
        return;
      }
      aviso := Some(PlatilloEliminado);
      if seleccionadoId == Some(id) {
        seleccionadoId := None;
      }
      FetchPlatillos(lista, falloLista);
    }

    /** `handleEditar`: the form takes the dish, the dish becomes the one
        being edited, any chosen file is dropped, and a dish with an id is
        selected. */
    method Editar(p: Platillo)
      modifies this`nuevo, this`editando, this`archivo, this`seleccionadoId
      ensures nuevo == p && editando == Some(p) && archivo == None
      ensures seleccionadoId == if p.id.Some? && p.id.value != 0 then p.id else old(seleccionadoId)
    {
      nuevo := p;
      editando := Some(p);
      archivo := None;
      if p.id.Some? && p.id.value != 0 {
        seleccionadoId := p.id;
      }
    }

    /** The `Nuevo` button: an empty form, nothing edited or selected. */
    method Nuevo()
      modifies this`nuevo, this`editando, this`archivo, this`seleccionadoId
      ensures nuevo == FormVacio && editando == None && archivo == None && seleccionadoId == None
    {
      editando := None;
      nuevo := FormVacio;
      archivo := None;
      seleccionadoId := None;
    }
  }
}

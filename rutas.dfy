/** The request handlers of app.py (lines 61-142) as methods of a store
    object that stands for the database session. Each handler commits at
    most once; a request that fails before its commit leaves the store as it
    was. Routing, templates and flash messages become `Response` values. */
module Rutas {
  import opened Wrappers
  import opened Modelos
  import opened QrHelper

  /** What a handler answers. */
  datatype Response =
    | /** `redirect(url_for('ver_maquina', codigo=...))` */
      VerMaquinaRedirect(codigo: string)
    | /** `buscar` miss: flash 'Máquina no encontrada', redirect to the index */
      IndexConAviso
    | /** `first_or_404` or `get_or_404` miss */
      Abort404
    | /** `crear_maquina` with a code in use: flash, redirect back to the form */
      CodigoDuplicado
    | /** `crear_maquina` except branch: rollback, flash the error, show the form */
      FormularioConError
    | /** an error no handler catches: a failed commit, an id SQLite cannot bind */
      ErrorInterno

  /** What `generar_qr_con_url` is asked to write: the link the image encodes
      and the path of the image file. */
  datatype QrPedido = QrPedido(payload: string, ruta: string)

  /** A machine page: the machine, and each of its faults with its comments. */
  datatype Ficha = Ficha(falla: Falla, comentarios: seq<Comentario>)
  datatype Vista = Vista(maquina: Maquina, fichas: seq<Ficha>)

  /** The largest value of a SQLite INTEGER, a signed 64-bit integer. Python's
      `sqlite3` refuses to bind a larger int as a query parameter. */
  const SqliteIntMax: nat := 0x7FFF_FFFF_FFFF_FFFF

  class Store {
    var maquinas: seq<Maquina>
    var fallas: seq<Falla>
    var comentarios: seq<Comentario>

    predicate Valid()
      reads this
    {
      Consistente(maquinas, fallas, comentarios)
    }

    /** `db.create_all()` on a fresh database (app.py:146). */
    constructor ()
      ensures Valid()
      ensures maquinas == [] && fallas == [] && comentarios == []
    {
      maquinas, fallas, comentarios := [], [], [];
    }

    /** `buscar` (app.py:65-73): redirect to the page of the submitted code
        when a machine has it, otherwise back to the index with a warning. */
    method Buscar(codigo: Option<string>) returns (resp: Response)
      ensures codigo.Some? && HasCode(maquinas, codigo.value) ==> resp == VerMaquinaRedirect(codigo.value)
      ensures !(codigo.Some? && HasCode(maquinas, codigo.value)) ==> resp == IndexConAviso
    {
      // filter_by(codigo=None) asks for a NULL code, which no machine has
      if codigo.None? {
        return IndexConAviso;
      }
      var found := FindCode(maquinas, codigo.value);
      if found.Some? {
        resp := VerMaquinaRedirect(codigo.value);
      } else {
        resp := IndexConAviso;
      }
    }

    /** `ver_maquina` on GET (app.py:75-77, app.py:89): the page of the machine
        with this code, listing its faults in row order with their comments. */
    method VerMaquina(codigo: string) returns (vista: Option<Vista>)
      requires Valid()
      ensures vista.None? <==> !HasCode(maquinas, codigo)
      ensures vista.Some? ==> vista.value.maquina in maquinas && vista.value.maquina.codigo == codigo
      ensures vista.Some? ==>
        var fs := FallasDe(fallas, vista.value.maquina.id);
        && |vista.value.fichas| == |fs|
        && forall k :: 0 <= k < |fs| ==>
             vista.value.fichas[k] == Ficha(fs[k], ComentariosDe(comentarios, fs[k].id))
    {
      var found := FindCode(maquinas, codigo);
      if found.None? {
        return None;
      }
      var m := maquinas[found.value];
      var fs, cs := FallasDe(fallas, m.id), comentarios;
      var fichas := seq(|fs|, k requires 0 <= k < |fs| => Ficha(fs[k], ComentariosDe(cs, fs[k].id)));
      vista := Some(Vista(m, fichas));
    }

    /** `ver_maquina` on POST (app.py:75-87): report a fault on the machine
        with this code. The new fault is 'Pendiente', carries the submitted
        description and technician, belongs to that machine, and is the only
        change. An unknown code is a 404; a missing description fails the
        NOT NULL constraint at commit, uncaught. */
    method ReportarFalla(codigo: string, descripcion: Option<string>, tecnico: Option<string>)
      returns (resp: Response)
      requires Valid()
      modifies this
      ensures Valid()
      ensures maquinas == old(maquinas) && comentarios == old(comentarios)
      ensures !HasCode(maquinas, codigo) ==> resp == Abort404 && fallas == old(fallas)
      ensures HasCode(maquinas, codigo) && descripcion.None? ==> resp == ErrorInterno && fallas == old(fallas)
      ensures HasCode(maquinas, codigo) && descripcion.Some? ==>
        && resp == VerMaquinaRedirect(codigo)
        && |fallas| == |old(fallas)| + 1
        && fallas[..|old(fallas)|] == old(fallas)
        && var f := fallas[|old(fallas)|];
           && f == Falla(|old(fallas)| + 1, descripcion.value, Pendiente, tecnico, f.maquinaId)
           && 1 <= f.maquinaId <= |maquinas| && maquinas[f.maquinaId - 1].codigo == codigo
           && FallasDe(fallas, f.maquinaId) == FallasDe(old(fallas), f.maquinaId) + [f]
           && ComentariosDe(comentarios, f.id) == []
    {
      var found := FindCode(maquinas, codigo);
      if found.None? {
        return Abort404;
      }
      var maquina := maquinas[found.value];
      if descripcion.None? {
        return ErrorInterno;
      }
      var nueva := Falla(|fallas| + 1, descripcion.value, Pendiente, tecnico, maquina.id);
      FallasDeAppend(fallas, nueva, maquina.id);
      ComentariosDeNextFalla(fallas, comentarios);
      InsertFallaConsistente(maquinas, fallas, comentarios, nueva);
      fallas := fallas + [nueva];
      resp := VerMaquinaRedirect(codigo);
    }

    /** `agregar_comentario` (app.py:91-109): on an existing fault, append a
        comment when the text is non-empty and overwrite the status with any
        non-empty value, then redirect to the page of the fault's machine.
        Nothing else changes; an unknown id is a 404. The `<int:id>` route
        accepts any run of digits, and an id above `SqliteIntMax` cannot be
        bound as a query parameter: the lookup raises, uncaught, before
        anything is written. */
    method AgregarComentario(id: nat, texto: Option<string>, autor: Option<string>, estado: Option<string>)
      returns (resp: Response)
      requires Valid()
      modifies this
      ensures Valid()
      ensures maquinas == old(maquinas)
      ensures id > SqliteIntMax ==>
        resp == ErrorInterno && fallas == old(fallas) && comentarios == old(comentarios)
      ensures id <= SqliteIntMax && !(1 <= id <= |old(fallas)|) ==>
        resp == Abort404 && fallas == old(fallas) && comentarios == old(comentarios)
      ensures id <= SqliteIntMax && 1 <= id <= |old(fallas)| ==>
        var f := old(fallas)[id - 1];
        && resp == VerMaquinaRedirect(maquinas[f.maquinaId - 1].codigo)
        && fallas == old(fallas)[id - 1 := f.(estado := if Truthy(estado) then estado.value else f.estado)]
        && comentarios == old(comentarios)
             + (if Truthy(texto) then [Comentario(|old(comentarios)| + 1, texto.value, autor, id)] else [])
        && ComentariosDe(comentarios, id)
             == ComentariosDe(old(comentarios), id) + (if Truthy(texto) then [comentarios[|comentarios| - 1]] else [])
      ensures |fallas| == |old(fallas)|
      ensures forall i :: 0 <= i < |fallas| ==>
        fallas[i].descripcion == old(fallas)[i].descripcion && fallas[i].tecnico == old(fallas)[i].tecnico
    {
      if id > SqliteIntMax {
        return ErrorInterno;
      }
      if !(1 <= id <= |fallas|) {
        return Abort404;
      }
      var falla := fallas[id - 1];
      if Truthy(texto) {
        var nuevo := Comentario(|comentarios| + 1, texto.value, autor, falla.id);
        ComentariosDeAppend(comentarios, nuevo, id);
        comentarios := comentarios + [nuevo];
      }
      if Truthy(estado) {
        fallas := fallas[id - 1 := falla.(estado := estado.value)];
      }
      resp := VerMaquinaRedirect(maquinas[falla.maquinaId - 1].codigo);
    }

    /** `crear_maquina` on POST (app.py:111-140). A code already in use is
        refused with nothing changed. Otherwise the machine is committed
        first, with the next id, and only then is its QR image requested:
        `qrGuardado` is whether encoding and writing the image succeeded. A
        failed image leaves the committed machine in place, since the
        rollback comes after the commit. A missing name or code fails the
        NOT NULL constraint inside the try block and is rolled back. */
    method CrearMaquina(nombre: Option<string>, codigo: Option<string>, descripcion: Option<string>,
                        urlPublica: string, qrGuardado: bool)
      returns (resp: Response, qr: Option<QrPedido>)
      requires Valid()
      modifies this
      ensures Valid()
      ensures fallas == old(fallas) && comentarios == old(comentarios)
      ensures codigo.Some? && HasCode(old(maquinas), codigo.value) ==>
        resp == CodigoDuplicado && maquinas == old(maquinas) && qr.None?
      ensures !(codigo.Some? && HasCode(old(maquinas), codigo.value)) && (nombre.None? || codigo.None?) ==>
        resp == FormularioConError && maquinas == old(maquinas) && qr.None?
      ensures nombre.Some? && codigo.Some? && !HasCode(old(maquinas), codigo.value) ==>
        && maquinas == old(maquinas) + [Maquina(|old(maquinas)| + 1, nombre.value, codigo.value, descripcion)]
        && FindCode(maquinas, codigo.value) == Some(|old(maquinas)|)
        && qr == Some(QrPedido(QrLink(urlPublica, codigo.value), QrPath(codigo.value)))
        && resp == (if qrGuardado then VerMaquinaRedirect(codigo.value) else FormularioConError)
    {
      qr := None;
      // filter_by(codigo=None) asks for a NULL code, which no machine has
      if codigo.Some? && FindCode(maquinas, codigo.value).Some? {
        return CodigoDuplicado, None;
      }
      if nombre.None? || codigo.None? {
        return FormularioConError, None;
      }
      var nueva := Maquina(|maquinas| + 1, nombre.value, codigo.value, descripcion);
      maquinas := maquinas + [nueva];
      FindCodeUnique(maquinas, |maquinas| - 1);
      qr := Some(QrPedido(QrLink(urlPublica, codigo.value), QrPath(codigo.value)));
      if qrGuardado {
        resp := VerMaquinaRedirect(codigo.value);
      } else {
        resp := FormularioConError;
      }
    }
  }

  /** A machine is created, a fault is reported on it, a comment is added
      and the status moved on; the machine's page then shows the one fault
      with its new status and the one comment. */
  method Recorrido() returns (vista: Option<Vista>)
    ensures vista.Some?
    ensures vista.value.maquina == Maquina(1, "Prensa 1", "A001", None)
    ensures vista.value.fichas == [
      Ficha(Falla(1, "Fuga", "Espera Repuestos", Some("Jon"), 1),
            [Comentario(1, "Pedido kit de sellos", Some("Jon"), 1)])]
  {
    var store := new Store();
    var r1, qr := store.CrearMaquina(Some("Prensa 1"), Some("A001"), None, "https://example.org/", true);
    assert HasCode(store.maquinas, "A001") by {
      assert store.maquinas[0].codigo == "A001";
    }
    var r2 := store.ReportarFalla("A001", Some("Fuga"), Some("Jon"));
    var r3 := store.AgregarComentario(1, Some("Pedido kit de sellos"), Some("Jon"), Some("Espera Repuestos"));
    vista := store.VerMaquina("A001");
    assert store.fallas == [Falla(1, "Fuga", "Espera Repuestos", Some("Jon"), 1)];
    assert FallasDe(store.fallas, 1) == store.fallas;
    assert store.comentarios == [Comentario(1, "Pedido kit de sellos", Some("Jon"), 1)];
    assert ComentariosDe(store.comentarios, 1) == store.comentarios;
    assert |vista.value.fichas| == 1;
  }
}

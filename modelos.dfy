/** The three tables of the maintenance database (app.py:16-39) as records,
    the constraints the database and the handlers keep on them, and the
    queries the handlers run. A table is a sequence of rows in insertion
    order; since no row is ever deleted, SQLite gives the row at position
    `i` the integer primary key `i + 1`. */
module Modelos {
  import opened Wrappers

  /** `Maquina` (app.py:16-22). The creation timestamp is not modelled. */
  datatype Maquina = Maquina(id: nat, nombre: string, codigo: string, descripcion: Option<string>)

  /** `Falla` (app.py:24-32). The report timestamp is not modelled. */
  datatype Falla = Falla(id: nat, descripcion: string, estado: string, tecnico: Option<string>, maquinaId: nat)

  /** `Comentario` (app.py:34-39). The timestamp is not modelled. */
  datatype Comentario = Comentario(id: nat, texto: string, autor: Option<string>, fallaId: nat)

  /** The column default of `Falla.estado` (app.py:27). */
  const Pendiente: string := "Pendiente"

  /** Python truthiness of a form field: present and not the empty string. */
  predicate Truthy(v: Option<string>)
  {
    v.Some? && v.value != ""
  }

  /** Machine ids are row numbers and `codigo` is unique (app.py:17, app.py:19). */
  predicate MaquinasOk(ms: seq<Maquina>)
  {
    && (forall i :: 0 <= i < |ms| ==> ms[i].id == i + 1)
    && (forall i, j :: 0 <= i < j < |ms| ==> ms[i].codigo != ms[j].codigo)
  }

  /** Fault ids are row numbers and each fault names an existing machine (app.py:25, app.py:30). */
  predicate FallasOk(ms: seq<Maquina>, fs: seq<Falla>)
  {
    forall i :: 0 <= i < |fs| ==> fs[i].id == i + 1 && 1 <= fs[i].maquinaId <= |ms|
  }

  /** Comment ids are row numbers and each comment names an existing fault (app.py:35, app.py:39). */
  predicate ComentariosOk(fs: seq<Falla>, cs: seq<Comentario>)
  {
    forall i :: 0 <= i < |cs| ==> cs[i].id == i + 1 && 1 <= cs[i].fallaId <= |fs|
  }

  /** The whole database is consistent (app.py:16-39). */
  predicate Consistente(ms: seq<Maquina>, fs: seq<Falla>, cs: seq<Comentario>)
  {
    MaquinasOk(ms) && FallasOk(ms, fs) && ComentariosOk(fs, cs)
  }

  /** In a consistent database a fault's `maquina_id` is the id of the
      machine at that row, and the lookup by that machine's code finds it
      again: `falla.maquina.codigo` leads back to the owner's page. */
  lemma FallaOwnerResolves(ms: seq<Maquina>, fs: seq<Falla>, cs: seq<Comentario>, i: nat)
    requires Consistente(ms, fs, cs)
    requires i < |fs|
    ensures 1 <= fs[i].maquinaId <= |ms| && ms[fs[i].maquinaId - 1].id == fs[i].maquinaId
    ensures FindCode(ms, ms[fs[i].maquinaId - 1].codigo) == Some(fs[i].maquinaId - 1)
  {
    FindCodeUnique(ms, fs[i].maquinaId - 1);
  }

  /** In a consistent database a comment's `falla_id` is the id of the
      fault at that row. */
  lemma ComentarioOwnerResolves(ms: seq<Maquina>, fs: seq<Falla>, cs: seq<Comentario>, j: nat)
    requires Consistente(ms, fs, cs)
    requires j < |cs|
    ensures 1 <= cs[j].fallaId <= |fs| && fs[cs[j].fallaId - 1].id == cs[j].fallaId
  {
  }

  /** A fault that takes the next id and names an existing machine keeps the
      database consistent. */
  lemma InsertFallaConsistente(ms: seq<Maquina>, fs: seq<Falla>, cs: seq<Comentario>, f: Falla)
    requires Consistente(ms, fs, cs)
    requires f.id == |fs| + 1 && 1 <= f.maquinaId <= |ms|
    ensures Consistente(ms, fs + [f], cs)
  {
    assert FallasOk(ms, fs + [f]) by {
      forall i | 0 <= i < |fs| + 1
        ensures (fs + [f])[i].id == i + 1 && 1 <= (fs + [f])[i].maquinaId <= |ms|
      {
        if i < |fs| {
          assert (fs + [f])[i] == fs[i];
        }
      }
    }
  }

  /** Some machine carries `codigo`. */
  predicate HasCode(ms: seq<Maquina>, codigo: string)
  {
    exists i :: 0 <= i < |ms| && ms[i].codigo == codigo
  }

  /** `Maquina.query.filter_by(codigo=codigo).first()`: the position of the
      first machine, in row order, that carries `codigo`. */
  function FindCode(ms: seq<Maquina>, codigo: string): (r: Option<nat>)
    ensures r.None? <==> !HasCode(ms, codigo)
    ensures r.Some? ==> r.value < |ms| && ms[r.value].codigo == codigo
    ensures r.Some? ==> forall j :: 0 <= j < r.value ==> ms[j].codigo != codigo
  {
    if ms == [] then None
    else if ms[0].codigo == codigo then Some(0)
    else match FindCode(ms[1..], codigo)
      case None => None
      case Some(k) => Some(k + 1)
  }

  /** With unique codes, the machine found by its code is the one that has it. */
  lemma FindCodeUnique(ms: seq<Maquina>, i: nat)
    requires MaquinasOk(ms)
    requires i < |ms|
    ensures FindCode(ms, ms[i].codigo) == Some(i)
  {
  }

  /** The rows of `s` that satisfy `p`, in their order. */
  function Filter<T(==,!new)>(s: seq<T>, p: T -> bool): (r: seq<T>)
    ensures |r| <= |s|
    ensures forall x :: x in r <==> x in s && p(x)
  {
    if s == [] then []
    else (if p(s[0]) then [s[0]] else []) + Filter(s[1..], p)
  }

  /** Inserting one row extends the filtered rows by that row exactly when it qualifies. */
  lemma {:induction false} FilterAppend<T(!new)>(s: seq<T>, x: T, p: T -> bool)
    ensures Filter(s + [x], p) == Filter(s, p) + (if p(x) then [x] else [])
  {
    if s == [] {
      assert s + [x] == [x];
    } else {
      assert (s + [x])[1..] == s[1..] + [x];
      FilterAppend(s[1..], x, p);
    }
  }

  /** No qualifying row, nothing filtered. */
  lemma {:induction false} FilterNone<T(!new)>(s: seq<T>, p: T -> bool)
    requires forall i :: 0 <= i < |s| ==> !p(s[i])
    ensures Filter(s, p) == []
  {
    if s != [] {
      FilterNone(s[1..], p);
    }
  }

  /** `maquina.fallas`: the faults whose owner is machine `maquinaId` (app.py:22). */
  function FallasDe(fs: seq<Falla>, maquinaId: nat): (r: seq<Falla>)
  {
    Filter(fs, (f: Falla) => f.maquinaId == maquinaId)
  }

  /** `falla.comentarios`: the comments attached to fault `fallaId` (app.py:32). */
  function ComentariosDe(cs: seq<Comentario>, fallaId: nat): (r: seq<Comentario>)
  {
    Filter(cs, (c: Comentario) => c.fallaId == fallaId)
  }

  /** `maquina.fallas` holds exactly the faults whose machine id is the
      machine's id. */
  lemma FallasDeMembers(fs: seq<Falla>, maquinaId: nat, f: Falla)
    ensures f in FallasDe(fs, maquinaId) <==> f in fs && f.maquinaId == maquinaId
  {
  }

  /** `falla.comentarios` holds exactly the comments whose fault id is the
      fault's id. */
  lemma ComentariosDeMembers(cs: seq<Comentario>, fallaId: nat, c: Comentario)
    ensures c in ComentariosDe(cs, fallaId) <==> c in cs && c.fallaId == fallaId
  {
  }

  /** A new comment joins the comment log of its own fault, at the end, and
      no other fault's log. */
  lemma ComentariosDeAppend(cs: seq<Comentario>, c: Comentario, fallaId: nat)
    ensures ComentariosDe(cs + [c], fallaId)
            == ComentariosDe(cs, fallaId) + (if c.fallaId == fallaId then [c] else [])
  {
    FilterAppend(cs, c, (c: Comentario) => c.fallaId == fallaId);
  }

  /** A fault with the next free id has no comments yet. */
  lemma ComentariosDeNextFalla(fs: seq<Falla>, cs: seq<Comentario>)
    requires ComentariosOk(fs, cs)
    ensures ComentariosDe(cs, |fs| + 1) == []
  {
    FilterNone(cs, (c: Comentario) => c.fallaId == |fs| + 1);
  }

  /** A new fault joins the fault list of its own machine, at the end, and
      no other machine's list. */
  lemma FallasDeAppend(fs: seq<Falla>, f: Falla, maquinaId: nat)
    ensures FallasDe(fs + [f], maquinaId)
            == FallasDe(fs, maquinaId) + (if f.maquinaId == maquinaId then [f] else [])
  {
    FilterAppend(fs, f, (f: Falla) => f.maquinaId == maquinaId);
  }
}

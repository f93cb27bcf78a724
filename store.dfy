/** The store the handlers talk to, as an in-memory object: one sequence of rows per
    table and a counter that hands out fresh row ids. */
module Store {
  import opened Rows

  /** The whole content of the store at one moment. */
  datatype Tables = Tables(clientes: seq<Cliente>, usuarios: seq<Usuario>, referidos: seq<Referido>,
                           conversiones: seq<Conversion>, premios: seq<Premio>,
                           validaciones: seq<Validacion>, nextId: Id)

  // ----------------------------------------------------------- upsert by key

  /** No two validations share a `cliente_id`, the assumed primary key of the table. */
  predicate KeysUnique(vs: seq<Validacion>)
  {
    forall i, j :: 0 <= i < j < |vs| ==> vs[i].clienteId != vs[j].clienteId
  }

  predicate HasKey(vs: seq<Validacion>, c: Id)
  {
    exists i :: 0 <= i < |vs| && vs[i].clienteId == c
  }

  /** `upsert` on `validaciones`, keyed by the assumed key `cliente_id`: a row with v's key
      is replaced in place by v, and v is appended when there is none. */
  function Upsert(vs: seq<Validacion>, v: Validacion): (r: seq<Validacion>)
    requires KeysUnique(vs)
    ensures KeysUnique(r) && v in r
    ensures forall i :: 0 <= i < |r| && r[i].clienteId == v.clienteId ==> r[i] == v
    ensures forall i :: 0 <= i < |vs| && vs[i].clienteId != v.clienteId ==> vs[i] in r
    ensures forall w :: w in r ==> w == v || w in vs
    ensures |r| == if HasKey(vs, v.clienteId) then |vs| else |vs| + 1
  {
    if HasKey(vs, v.clienteId) then
      var r := seq(|vs|, i requires 0 <= i < |vs| => if vs[i].clienteId == v.clienteId then v else vs[i]);
      assert forall i :: 0 <= i < |vs| && vs[i].clienteId != v.clienteId ==> vs[i] == r[i];
      assert v in r by {
        var k :| 0 <= k < |vs| && vs[k].clienteId == v.clienteId;
        assert r[k] == v;
      }
      r
    else
      vs + [v]
  }

  /** The validation stored for client c, if any (first match). */
  function Lookup(vs: seq<Validacion>, c: Id): (r: Option<Validacion>)
    ensures r.Some? ==> r.value in vs && r.value.clienteId == c
    ensures r.None? <==> !HasKey(vs, c)
  {
    if vs == [] then None
    else if vs[0].clienteId == c then Some(vs[0])
    else
      var r := Lookup(vs[1..], c);
      assert HasKey(vs, c) ==> HasKey(vs[1..], c) by {
        if HasKey(vs, c) {
          var i :| 0 <= i < |vs| && vs[i].clienteId == c;
          assert vs[1..][i - 1] == vs[i];
        }
      }
      assert HasKey(vs[1..], c) ==> HasKey(vs, c) by {
        if HasKey(vs[1..], c) {
          var i :| 0 <= i < |vs[1..]| && vs[1..][i].clienteId == c;
          assert vs[i + 1] == vs[1..][i];
        }
      }
      r
  }

  /** With unique keys, the lookup finds the one row a client has. */
  lemma {:induction false} LookupFindsRow(vs: seq<Validacion>, w: Validacion)
    requires KeysUnique(vs) && w in vs
    ensures Lookup(vs, w.clienteId) == Some(w)
  {
    if vs[0] != w {
      assert w in vs[1..];
      assert vs[0].clienteId != w.clienteId by {
        var k :| 0 <= k < |vs| && vs[k] == w;
        assert k != 0;
      }
      LookupFindsRow(vs[1..], w);
    }
  }

  /** Read after write: after the upsert the store answers v for v's client and what it
      answered before for every other client. */
  lemma UpsertThenLookup(vs: seq<Validacion>, v: Validacion, c: Id)
    requires KeysUnique(vs)
    ensures Lookup(Upsert(vs, v), v.clienteId) == Some(v)
    ensures c != v.clienteId ==> Lookup(Upsert(vs, v), c) == Lookup(vs, c)
  {
    var r := Upsert(vs, v);
    LookupFindsRow(r, v);
    if c != v.clienteId {
      match Lookup(vs, c)
      case Some(w) =>
        var i :| 0 <= i < |vs| && vs[i] == w;
        LookupFindsRow(r, w);
      case None =>
        assert !HasKey(r, c);
    }
  }

  /** Upserting the same row twice is upserting it once. */
  lemma UpsertIdempotent(vs: seq<Validacion>, v: Validacion)
    requires KeysUnique(vs)
    ensures Upsert(Upsert(vs, v), v) == Upsert(vs, v)
  {
    UpsertLastWriteWins(vs, v, v);
  }

  /** Two upserts for one client leave only the second row (last write wins). */
  lemma UpsertLastWriteWins(vs: seq<Validacion>, v1: Validacion, v2: Validacion)
    requires KeysUnique(vs)
    requires v1.clienteId == v2.clienteId
    ensures Upsert(Upsert(vs, v1), v2) == Upsert(vs, v2)
  {
    var once := Upsert(vs, v1);
    assert HasKey(once, v2.clienteId) by {
      var k :| 0 <= k < |once| && once[k] == v1;
    }
    if HasKey(vs, v1.clienteId) {
      assert |once| == |vs|;
      var i :| 0 <= i < |vs| && vs[i].clienteId == v1.clienteId;
    } else {
      assert once == vs + [v1];
      forall i | 0 <= i < |vs| ensures vs[i].clienteId != v2.clienteId {
        assert !(vs[i].clienteId == v1.clienteId);
      }
    }
  }

  // --------------------------------------------------------------- the store

  class Db {
    var clientes: seq<Cliente>
    var usuarios: seq<Usuario>
    var referidos: seq<Referido>
    var conversiones: seq<Conversion>
    var premios: seq<Premio>
    var validaciones: seq<Validacion>
    /** The id the next insert will get. */
    var nextId: Id

    ghost function Snapshot(): Tables
      reads this
    {
      Tables(clientes, usuarios, referidos, conversiones, premios, validaciones, nextId)
    }

    /** Every row id was handed out before, so `nextId` is fresh in every table;
        `cliente_id`, the assumed key of `validaciones`, is unique. */
    ghost predicate Valid()
      reads this
    {
      (forall i :: 0 <= i < |clientes| ==> clientes[i].id < nextId) &&
      (forall i :: 0 <= i < |usuarios| ==> usuarios[i].id < nextId) &&
      (forall i :: 0 <= i < |referidos| ==> referidos[i].id < nextId) &&
      (forall i :: 0 <= i < |conversiones| ==> conversiones[i].id < nextId) &&
      (forall i :: 0 <= i < |premios| ==> premios[i].id < nextId) &&
      KeysUnique(validaciones)
    }

    constructor ()
      ensures Valid()
      ensures Snapshot() == Tables([], [], [], [], [], [], 0)
    {
      clientes, usuarios, referidos, conversiones, premios, validaciones := [], [], [], [], [], [];
      nextId := 0;
    }

    method InsertCliente(restauranteId: Id, nombre: string, telefono: string, correo: string, codigo: string)
      returns (row: Cliente)
      requires Valid()
      modifies this
      ensures Valid()
      ensures row == Cliente(old(nextId), restauranteId, nombre, telefono, correo, codigo)
      ensures Snapshot() == old(Snapshot()).(clientes := old(clientes) + [row], nextId := old(nextId) + 1)
    {
      row := Cliente(nextId, restauranteId, nombre, telefono, correo, codigo);
      clientes := clientes + [row];
      nextId := nextId + 1;
    }

    method InsertUsuario(restauranteId: Id, nombre: string, correo: string, telefono: string)
      returns (row: Usuario)
      requires Valid()
      modifies this
      ensures Valid()
      ensures row == Usuario(old(nextId), restauranteId, nombre, correo, telefono)
      ensures Snapshot() == old(Snapshot()).(usuarios := old(usuarios) + [row], nextId := old(nextId) + 1)
    {
      row := Usuario(nextId, restauranteId, nombre, correo, telefono);
      usuarios := usuarios + [row];
      nextId := nextId + 1;
    }

    method InsertReferido(restauranteId: Id, clienteOwnerId: Option<Id>, clienteId: Option<Id>, codigo: string)
      returns (row: Referido)
      requires Valid()
      modifies this
      ensures Valid()
      ensures row == Referido(old(nextId), restauranteId, clienteOwnerId, clienteId, codigo)
      ensures Snapshot() == old(Snapshot()).(referidos := old(referidos) + [row], nextId := old(nextId) + 1)
    {
      row := Referido(nextId, restauranteId, clienteOwnerId, clienteId, codigo);
      referidos := referidos + [row];
      nextId := nextId + 1;
    }

    method InsertConversion(restauranteId: Id, referidoId: Id, clienteId: Id, fecha: string, estado: string)
      returns (row: Conversion)
      requires Valid()
      modifies this
      ensures Valid()
      ensures row == Conversion(old(nextId), restauranteId, referidoId, clienteId, fecha, estado)
      ensures Snapshot() == old(Snapshot()).(conversiones := old(conversiones) + [row], nextId := old(nextId) + 1)
    {
      row := Conversion(nextId, restauranteId, referidoId, clienteId, fecha, estado);
      conversiones := conversiones + [row];
      nextId := nextId + 1;
    }

    method InsertPremio(restauranteId: Id, descripcion: string, umbral: int, tipoPremio: string, detallePremio: string)
      returns (row: Premio)
      requires Valid()
      modifies this
      ensures Valid()
      ensures row == Premio(old(nextId), restauranteId, descripcion, umbral, tipoPremio, detallePremio)
      ensures Snapshot() == old(Snapshot()).(premios := old(premios) + [row], nextId := old(nextId) + 1)
    {
      row := Premio(nextId, restauranteId, descripcion, umbral, tipoPremio, detallePremio);
      premios := premios + [row];
      nextId := nextId + 1;
    }

    method UpsertValidacion(v: Validacion)
      requires Valid()
      modifies this
      ensures Valid()
      ensures Snapshot() == old(Snapshot()).(validaciones := Upsert(old(validaciones), v))
    {
      validaciones := Upsert(validaciones, v);
    }
  }
}

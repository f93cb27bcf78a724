/** The referral-tracking handlers of the Express application, each as a method on the
    store it is given. A store call that reports an error is a boolean parameter: the
    handler then answers 400 and that call changes nothing. */
module App {
  import opened Rows
  import opened Estados
  import opened Queries
  import opened Store

  /** `registrar_consumo = true` in the body of /usarCodigo: None is a body without the
      field, so the default applies; Some(b) is a supplied value whose truthiness is b. */
  function ConsumoSolicitado(flag: Option<bool>): bool
  {
    match flag
    case None => true
    case Some(b) => b
  }

  /** /registrarCliente, with the generated referral code passed in. */
  method RegistrarCliente(db: Db, restauranteId: Id, nombre: string, telefono: string, correo: string,
                          codigo: string, storeError: bool)
    returns (r: Response<ClienteCreado>)
    requires db.Valid()
    modifies db
    ensures db.Valid()
    ensures storeError ==> r == BadRequest(StoreError) && db.Snapshot() == old(db.Snapshot())
    ensures !storeError ==>
              var row := Cliente(old(db.nextId), restauranteId, nombre, telefono, correo, codigo);
              r == Ok(ClienteCreado(row.id, codigo)) &&
              db.Snapshot() == old(db.Snapshot()).(clientes := old(db.clientes) + [row], nextId := old(db.nextId) + 1)
  {
    if storeError {
      return BadRequest(StoreError);
    }
    var row := db.InsertCliente(restauranteId, nombre, telefono, correo, codigo);
    r := Ok(ClienteCreado(row.id, codigo));
  }

  /** /registrarUsuario: answers the new `usuario_id`. */
  method RegistrarUsuario(db: Db, restauranteId: Id, nombre: string, correo: string, telefono: string,
                          storeError: bool)
    returns (r: Response<Id>)
    requires db.Valid()
    modifies db
    ensures db.Valid()
    ensures storeError ==> r == BadRequest(StoreError) && db.Snapshot() == old(db.Snapshot())
    ensures !storeError ==>
              var row := Usuario(old(db.nextId), restauranteId, nombre, correo, telefono);
              r == Ok(row.id) &&
              db.Snapshot() == old(db.Snapshot()).(usuarios := old(db.usuarios) + [row], nextId := old(db.nextId) + 1)
  {
    if storeError {
      return BadRequest(StoreError);
    }
    var row := db.InsertUsuario(restauranteId, nombre, correo, telefono);
    r := Ok(row.id);
  }

  /** /registrarReferido: a referral owned (`cliente_owner_id`) by the given client, with
      the given code; nothing checks that the code is that client's. Answers `referido_id`. */
  method RegistrarReferido(db: Db, restauranteId: Id, clienteId: Id, codigoReferido: string, storeError: bool)
    returns (r: Response<Id>)
    requires db.Valid()
    modifies db
    ensures db.Valid()
    ensures storeError ==> r == BadRequest(StoreError) && db.Snapshot() == old(db.Snapshot())
    ensures !storeError ==>
              var row := Referido(old(db.nextId), restauranteId, Some(clienteId), None, codigoReferido);
              r == Ok(row.id) &&
              db.Snapshot() == old(db.Snapshot()).(referidos := old(db.referidos) + [row], nextId := old(db.nextId) + 1)
    ensures forall c :: Summarize(db.referidos, db.conversiones, c).totalReferidos ==
                        Summarize(old(db.referidos), old(db.conversiones), c).totalReferidos +
                        (if c == clienteId && !storeError then 1 else 0)
  {
    if storeError {
      return BadRequest(StoreError);
    }
    ghost var refs0 := db.referidos;
    var row := db.InsertReferido(restauranteId, Some(clienteId), None, codigoReferido);
    forall c
      ensures Summarize(db.referidos, db.conversiones, c).totalReferidos ==
              Summarize(refs0, db.conversiones, c).totalReferidos + (if c == clienteId then 1 else 0)
    {
      SummarizeAfterReferido(refs0, db.conversiones, row, c);
    }
    r := Ok(row.id);
  }

  /** /registrarConversion: the estado gate, then one conversion row carrying the caller's
      fields and the `estado` exactly as sent. The referral and client are not looked up. */
  method RegistrarConversion(db: Db, restauranteId: Id, referidoId: Id, clienteId: Id,
                             fechaConversion: string, estado: string, storeError: bool)
    returns (r: Response<Conversion>)
    requires db.Valid()
    modifies db
    ensures db.Valid()
    ensures !EstadoPermitido(estado) ==> r == BadRequest(EstadoNoPermitido) && db.Snapshot() == old(db.Snapshot())
    ensures EstadoPermitido(estado) && storeError ==>
              r == BadRequest(StoreError) && db.Snapshot() == old(db.Snapshot())
    ensures EstadoPermitido(estado) && !storeError ==>
              var row := Conversion(old(db.nextId), restauranteId, referidoId, clienteId, fechaConversion, estado);
              r == Ok(row) &&
              db.Snapshot() == old(db.Snapshot()).(conversiones := old(db.conversiones) + [row], nextId := old(db.nextId) + 1)
    ensures forall c :: Summarize(db.referidos, db.conversiones, c).totalConversiones ==
                        Summarize(old(db.referidos), old(db.conversiones), c).totalConversiones +
                        (if r.Ok? && referidoId in OwnedReferralIds(old(db.referidos), c) then 1 else 0)
  {
    if !EstadoPermitido(estado) {
      return BadRequest(EstadoNoPermitido);
    }
    if storeError {
      return BadRequest(StoreError);
    }
    ghost var convs0 := db.conversiones;
    var row := db.InsertConversion(restauranteId, referidoId, clienteId, fechaConversion, estado);
    forall c
      ensures Summarize(db.referidos, db.conversiones, c).totalConversiones ==
              Summarize(db.referidos, convs0, c).totalConversiones +
              (if referidoId in OwnedReferralIds(db.referidos, c) then 1 else 0)
    {
      SummarizeAfterConversion(db.referidos, convs0, row, c);
    }
    r := Ok(row);
  }

  /** /registrarPremio: answers the new `premio_id`. */
  method RegistrarPremio(db: Db, restauranteId: Id, descripcion: string, umbral: int, tipoPremio: string,
                         detallePremio: string, storeError: bool)
    returns (r: Response<Id>)
    requires db.Valid()
    modifies db
    ensures db.Valid()
    ensures storeError ==> r == BadRequest(StoreError) && db.Snapshot() == old(db.Snapshot())
    ensures !storeError ==>
              var row := Premio(old(db.nextId), restauranteId, descripcion, umbral, tipoPremio, detallePremio);
              r == Ok(row.id) &&
              db.Snapshot() == old(db.Snapshot()).(premios := old(db.premios) + [row], nextId := old(db.nextId) + 1)
  {
    if storeError {
      return BadRequest(StoreError);
    }
    var row := db.InsertPremio(restauranteId, descripcion, umbral, tipoPremio, detallePremio);
    r := Ok(row.id);
  }

  /** /validarCliente: upsert keyed by the assumed key `cliente_id`; the last write wins. */
  method ValidarCliente(db: Db, clienteId: Id, validado: bool, motivo: string, storeError: bool)
    returns (r: Response<Validacion>)
    requires db.Valid()
    modifies db
    ensures db.Valid()
    ensures storeError ==> r == BadRequest(StoreError) && db.Snapshot() == old(db.Snapshot())
    ensures !storeError ==>
              r == Ok(Validacion(clienteId, validado, motivo)) &&
              db.Snapshot() == old(db.Snapshot()).(validaciones := Upsert(old(db.validaciones), r.payload))
    ensures !storeError ==> Lookup(db.validaciones, clienteId) == Some(Validacion(clienteId, validado, motivo))
    ensures forall c :: c != clienteId ==> Lookup(db.validaciones, c) == Lookup(old(db.validaciones), c)
  {
    if storeError {
      return BadRequest(StoreError);
    }
    var row := Validacion(clienteId, validado, motivo);
    ghost var vs0 := db.validaciones;
    db.UpsertValidacion(row);
    forall c
      ensures Lookup(db.validaciones, row.clienteId) == Some(row)
      ensures c != clienteId ==> Lookup(db.validaciones, c) == Lookup(vs0, c)
    {
      UpsertThenLookup(vs0, row, c);
    }
    r := Ok(row);
  }

  /** /clientes/:id/resumen: counts the client's referrals, selects their ids and, only when
      there is at least one, counts the conversions tied to them. The three store calls may
      each fail. Reads the store and changes nothing. */
  method Resumen(db: Db, clienteId: Id, countError: bool, selectError: bool, convCountError: bool)
    returns (r: Response<Summary>)
    ensures countError || selectError ==> r == BadRequest(StoreError)
    ensures !countError && !selectError && CountOwned(db.referidos, clienteId) == 0 ==>
              r == Ok(Summary(clienteId, 0, 0))
    ensures !countError && !selectError && CountOwned(db.referidos, clienteId) > 0 ==>
              r == if convCountError then BadRequest(StoreError)
                   else Ok(Summarize(db.referidos, db.conversiones, clienteId))
    ensures r.Ok? ==> r.payload == Summarize(db.referidos, db.conversiones, clienteId)
  {
    if countError {
      return BadRequest(StoreError);
    }
    var totalReferidos := CountOwned(db.referidos, clienteId);
    if selectError {
      return BadRequest(StoreError);
    }
    var ids := OwnedIds(db.referidos, clienteId);
    var totalConversiones := 0;
    if |ids| > 0 {
      if convCountError {
        return BadRequest(StoreError);
      }
      totalConversiones := CountReferencing(db.conversiones, ids);
    }
    r := Ok(Summary(clienteId, totalReferidos, totalConversiones));
  }

  /** /usarCodigo: the first client holding the code owns the redemption. The referral is
      written with the owner in `cliente_id` (not `cliente_owner_id`); when a consumption is
      requested, a `confirmado` conversion dated `hoy` follows, whose `cliente_id` is the
      owner too. The two inserts are not atomic: if the second fails, the first stays. */
  method UsarCodigo(db: Db, codigo: string, registrarConsumo: Option<bool>, hoy: string,
                    lookupError: bool, referidoError: bool, conversionError: bool)
    returns (r: Response<CodigoUsado>)
    requires db.Valid()
    modifies db
    ensures db.Valid()
    ensures lookupError ==> r == BadRequest(StoreError) && db.Snapshot() == old(db.Snapshot())
    ensures !lookupError && old(FirstWithCode(db.clientes, codigo)).None? ==>
              r == NotFound && db.Snapshot() == old(db.Snapshot())
    ensures !lookupError && old(FirstWithCode(db.clientes, codigo)).Some? ==>
              var owner := old(FirstWithCode(db.clientes, codigo)).value;
              var ref := Referido(old(db.nextId), owner.restauranteId, None, Some(owner.id), codigo);
              var conv := Conversion(old(db.nextId) + 1, owner.restauranteId, ref.id, owner.id, hoy, CONFIRMADO);
              var withRef := old(db.Snapshot()).(referidos := old(db.referidos) + [ref], nextId := old(db.nextId) + 1);
              if referidoError then
                r == BadRequest(StoreError) && db.Snapshot() == old(db.Snapshot())
              else if !ConsumoSolicitado(registrarConsumo) then
                r == Ok(CodigoUsado(owner.id, ref.id, None)) && db.Snapshot() == withRef
              else if conversionError then
                r == BadRequest(StoreError) && db.Snapshot() == withRef
              else
                r == Ok(CodigoUsado(owner.id, ref.id, Some(conv))) &&
                db.Snapshot() == withRef.(conversiones := old(db.conversiones) + [conv], nextId := old(db.nextId) + 2)
    ensures forall c :: Summarize(db.referidos, db.conversiones, c) ==
                        Summarize(old(db.referidos), old(db.conversiones), c)
  {
    if lookupError {
      return BadRequest(StoreError);
    }
    var found := FirstWithCode(db.clientes, codigo);
    if found.None? {
      return NotFound;
    }
    var owner := found.value;
    if referidoError {
      return BadRequest(StoreError);
    }
    ghost var refs0, convs0 := db.referidos, db.conversiones;
    var ref := db.InsertReferido(owner.restauranteId, None, Some(owner.id), codigo);
    forall c
      ensures Summarize(db.referidos, convs0, c) == Summarize(refs0, convs0, c)
    {
      SummarizeAfterReferido(refs0, convs0, ref, c);
    }
    if !ConsumoSolicitado(registrarConsumo) {
      return Ok(CodigoUsado(owner.id, ref.id, None));
    }
    if conversionError {
      return BadRequest(StoreError);
    }
    var conv := db.InsertConversion(owner.restauranteId, ref.id, owner.id, hoy, CONFIRMADO);
    forall c
      ensures Summarize(db.referidos, db.conversiones, c) == Summarize(refs0, convs0, c)
    {
      RedemptionInvisibleToSummary(refs0, convs0, ref, conv, c);
    }
    r := Ok(CodigoUsado(owner.id, ref.id, Some(conv)));
  }
}

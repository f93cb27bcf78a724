/** The rows of the five tables the referral handlers touch (plus `usuarios`),
    and the shape of a handler's answer once the HTTP plumbing is taken away. */
module Rows {

  /** Row ids are handed out by the store; the model uses natural numbers. */
  type Id = nat

  datatype Option<T> = None | Some(value: T)

  /** Why a handler answered 400. */
  datatype Reason =
    | EstadoNoPermitido   // the estado gate of /registrarConversion
    | StoreError          // any error reported by the store (its message is not modelled)

  /** A handler's answer: Ok carries the JSON payload (status 200 or 201),
      BadRequest is status 400 and NotFound is status 404. */
  datatype Response<T> = Ok(payload: T) | BadRequest(reason: Reason) | NotFound

  /** A row of `clientes`. */
  datatype Cliente = Cliente(id: Id, restauranteId: Id, nombre: string, telefono: string,
                             correo: string, codigoReferido: string)

  /** A row of `usuarios`. */
  datatype Usuario = Usuario(id: Id, restauranteId: Id, nombre: string, correo: string, telefono: string)

  /** A row of `referidos`. /registrarReferido writes the code owner into `cliente_owner_id`;
      /usarCodigo writes it into `cliente_id` instead. The column a handler does not write is null. */
  datatype Referido = Referido(id: Id, restauranteId: Id, clienteOwnerId: Option<Id>,
                               clienteId: Option<Id>, codigoReferido: string)

  /** A row of `conversiones`; `estado` is stored exactly as the caller sent it. */
  datatype Conversion = Conversion(id: Id, restauranteId: Id, referidoId: Id, clienteId: Id,
                                   fechaConversion: string, estado: string)

  /** A row of `premios`. */
  datatype Premio = Premio(id: Id, restauranteId: Id, descripcion: string, umbral: int,
                           tipoPremio: string, detallePremio: string)

  /** A row of `validaciones`. The upsert is assumed to be keyed by `cliente_id` (the table's
      primary key is not given by the code). */
  datatype Validacion = Validacion(clienteId: Id, validado: bool, motivo: string)

  /** The payload of /clientes/:id/resumen. */
  datatype Summary = Summary(clienteId: Id, totalReferidos: nat, totalConversiones: nat)

  /** The payload of /registrarCliente. */
  datatype ClienteCreado = ClienteCreado(clienteId: Id, codigoReferido: string)

  /** The payload of /usarCodigo. */
  datatype CodigoUsado = CodigoUsado(clienteId: Id, referidoId: Id, conversion: Option<Conversion>)
}

/** The administrative grant of `saldo_creditos` (`asignar_creditos_admin`). */
module Admin {
  import opened Base
  import opened Db
  import opened Credito

  /** The reply: the amount and the target's names for the message, and `nuevo_saldo`. */
  datatype AsignacionAdmin = AsignacionAdmin(monto: int, nombres: string, apellidos: string, nuevoSaldo: int)

  /** How an f-string renders a stored name: `null` is formatted as "None". */
  function Texto(o: Option<string>): string
  {
    if o.Some? then o.value else "None"
  }

  const ErrSoloAdmin := HttpError(403, "Solo los administradores pueden asignar créditos")

  /** True when the account whose ObjectId is `userId` exists and has `rol == "admin"`. */
  predicate EsAdmin(us: Usuarios, userId: string)
  {
    ObjectId(userId) in us && us[ObjectId(userId)].rol == Some("admin")
  }

  /** The checks of the grant, in order: `ObjectId(user_id)` raises on a
      malformed caller id; the caller must be an admin (403); the target id
      must be a valid ObjectId (400); the target account must exist (404). */
  function ChequeoAsignacionAdmin(us: Usuarios, data: AsignacionCreditoRequest, userId: string,
                                  validOid: string -> bool): (r: Option<Error>)
    ensures r.None? <==>
      validOid(userId) && EsAdmin(us, userId) && validOid(data.usuarioId) && ObjectId(data.usuarioId) in us
    ensures !validOid(userId) ==> r == Some(InvalidId)
    ensures validOid(userId) && !EsAdmin(us, userId) ==> r == Some(ErrSoloAdmin)
    ensures validOid(userId) && EsAdmin(us, userId) && !validOid(data.usuarioId) ==>
      r == Some(HttpError(400, "ID de usuario inválido"))
    ensures validOid(userId) && EsAdmin(us, userId) && validOid(data.usuarioId) && ObjectId(data.usuarioId) !in us ==>
      r == Some(HttpError(404, "Usuario no encontrado"))
  {
    if !validOid(userId) then Some(InvalidId)
    else if !EsAdmin(us, userId) then Some(ErrSoloAdmin)
    else if !validOid(data.usuarioId) then Some(HttpError(400, "ID de usuario inválido"))
    else if ObjectId(data.usuarioId) !in us then Some(HttpError(404, "Usuario no encontrado"))
    else None
  }

  /** The log document of the grant; `justificacion` is always the request's
      (a validated request always has the attribute). */
  function RegistroAsignacionAdmin(data: AsignacionCreditoRequest, now: int): Registro
  {
    Registro(None, Some("admin"), Some(data.usuarioId), data.monto, now, "asignacion", None, Some(data.justificacion))
  }

  /** Adds `monto` to the target's `saldo_creditos`, stamps its
      `moneda_virtual.ultima_actualizacion` and logs one record. The reply takes
      `nombres` and `apellidos` from the target's document as read before the
      writes, and only after both writes: a document without either key ends in a
      KeyError with the writes kept, while a name stored as `null` is formatted as "None". */
  method AsignarCreditosAdmin(db: Database, data: AsignacionCreditoRequest, userId: string,
                              validOid: string -> bool, now: int)
    returns (r: Result<AsignacionAdmin>)
    requires EsValida(data)
    modifies db
    // every check precedes every write
    ensures ChequeoAsignacionAdmin(old(db.usuarios), data, userId, validOid).Some? ==>
      && r == Err(ChequeoAsignacionAdmin(old(db.usuarios), data, userId, validOid).value)
      && db.usuarios == old(db.usuarios) && db.transacciones == old(db.transacciones)
    ensures ChequeoAsignacionAdmin(old(db.usuarios), data, userId, validOid).None? ==>
      var t := ObjectId(data.usuarioId);
      var u := old(db.usuarios)[t];
      // only the target's `saldo_creditos` and time stamp change
      && db.usuarios.Keys == old(db.usuarios).Keys
      && (forall k :: k in db.usuarios && k != t ==> db.usuarios[k] == old(db.usuarios)[k])
      && db.usuarios[t] == u.(saldoCreditos := u.saldoCreditos + data.monto, ultimaActualizacion := Some(now))
      // exactly one record
      && db.transacciones == old(db.transacciones) + [RegistroAsignacionAdmin(data, now)]
      // the reply, whose `nuevo_saldo` is the stored balance
      && (r.Ok? <==> u.nombres.Given? && u.apellidos.Given?)
      && (r.Ok? ==> r.value == AsignacionAdmin(data.monto, Texto(u.nombres.value), Texto(u.apellidos.value),
                                              db.usuarios[t].saldoCreditos))
      && (u.nombres.Missing? ==> r == Err(KeyError("nombres")))
      && (u.nombres.Given? && u.apellidos.Missing? ==> r == Err(KeyError("apellidos")))
    // the grant never lowers any balance, and adds exactly `monto` to the total `saldo_creditos`
    ensures ChequeoAsignacionAdmin(old(db.usuarios), data, userId, validOid).None? ==>
      && (forall k, c :: k in old(db.usuarios) ==> Balance(db.usuarios[k], c) >= Balance(old(db.usuarios)[k], c))
      && Total(db.usuarios, SaldoCreditos) == Total(old(db.usuarios), SaldoCreditos) + data.monto
  {
    var chequeo := ChequeoAsignacionAdmin(db.usuarios, data, userId, validOid);
    if chequeo.Some? {
      return Err(chequeo.value);
    }
    var t := ObjectId(data.usuarioId);
    var usuario := db.usuarios[t];
    var nuevoSaldo := usuario.saldoCreditos + data.monto;
    TotalActualizar(db.usuarios, t, usuario.(saldoCreditos := nuevoSaldo, ultimaActualizacion := Some(now)), SaldoCreditos);
    db.UpdateSetCreditos(t, nuevoSaldo, now);
    var _ := db.InsertOne(RegistroAsignacionAdmin(data, now));
    if usuario.nombres.Missing? {
      return Err(KeyError("nombres"));
    }
    if usuario.apellidos.Missing? {
      return Err(KeyError("apellidos"));
    }
    return Ok(AsignacionAdmin(data.monto, Texto(usuario.nombres.value), Texto(usuario.apellidos.value), nuevoSaldo));
  }
}

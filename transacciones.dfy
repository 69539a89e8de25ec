/** The credit-movement handlers: the admin check, the reusable movement
    `ejecutar_transaccion`, the balance and history queries, the checked
    transfer on `moneda_virtual.saldo` and the admin grant on `saldo`. */
module Transacciones {
  import opened Base
  import opened Db
  import opened ModeloTransaccion

  const ErrAdmin := HttpError(403, "Acceso restringido a administradores")

  /** `ObjectId.is_valid` on an optional id: `None` is never valid; a string
      is passed to the library's check, here the parameter `validOid`. */
  predicate EsObjectIdValido(validOid: string -> bool, o: Option<string>)
  {
    o.Some? && validOid(o.value)
  }

  // ---------------------------------------------------------------------------
  // verificar_admin

  /** The caller passes when the account whose ObjectId is `userId` exists and
      has `rol == "admin"`. `ObjectId(userId)` raises on a malformed id. */
  function VerificarAdmin(us: Usuarios, userId: string, validOid: string -> bool): (r: Result<string>)
    ensures r.Ok? <==> validOid(userId) && ObjectId(userId) in us && us[ObjectId(userId)].rol == Some("admin")
    ensures r.Ok? ==> r.value == userId
    ensures !validOid(userId) ==> r == Err(InvalidId)
    ensures validOid(userId) && r.Err? ==> r == Err(ErrAdmin)
  {
    if !validOid(userId) then Err(InvalidId)
    else if ObjectId(userId) !in us || us[ObjectId(userId)].rol != Some("admin") then Err(ErrAdmin)
    else Ok(userId)
  }

  // ---------------------------------------------------------------------------
  // ejecutar_transaccion

  /** The checks of `ejecutar_transaccion`, in order: the sender (only when
      `idEmisor` is truthy) exists and holds `saldo >= monto`, then the receiver
      exists. `None` means every check passed. */
  function ChequeoEjecutar(us: Usuarios, idEmisor: Option<string>, idReceptor: string, monto: int): (r: Option<Error>)
    ensures r.None? <==>
      && (Truthy(idEmisor) ==> Str(idEmisor.value) in us && us[Str(idEmisor.value)].saldo >= monto)
      && Str(idReceptor) in us
    ensures Truthy(idEmisor) && Str(idEmisor.value) !in us ==> r == Some(ValueError("Emisor no encontrado"))
    ensures Truthy(idEmisor) && Str(idEmisor.value) in us && us[Str(idEmisor.value)].saldo < monto ==>
              r == Some(ValueError("Saldo insuficiente"))
    ensures (Truthy(idEmisor) ==> Str(idEmisor.value) in us && us[Str(idEmisor.value)].saldo >= monto) &&
            Str(idReceptor) !in us ==>
              r == Some(ValueError("Receptor no encontrado"))
    ensures r.Some? ==> r.value.ValueError?
  {
    if Truthy(idEmisor) && Str(idEmisor.value) !in us then Some(ValueError("Emisor no encontrado"))
    else if Truthy(idEmisor) && us[Str(idEmisor.value)].saldo < monto then Some(ValueError("Saldo insuficiente"))
    else if Str(idReceptor) !in us then Some(ValueError("Receptor no encontrado"))
    else None
  }

  /** How much `ejecutar_transaccion` adds to the `saldo` of account k. */
  function DeltaEjecutar(k: DocId, idEmisor: Option<string>, idReceptor: string, monto: int): int
  {
    (if Truthy(idEmisor) && k == Str(idEmisor.value) then -monto else 0) +
    (if k == Str(idReceptor) then monto else 0)
  }

  /** Moves `monto` of top-level `saldo` from `idEmisor` (when truthy) to
      `idReceptor` and logs one record; returns the record's id. Accounts are
      looked up by plain-string `_id`. Nothing checks the sign of `monto`. */
  method EjecutarTransaccion(db: Database, idEmisor: Option<string>, idReceptor: string, monto: int,
                             tipo: string, justificacion: Option<string>, idServicio: Option<string>, now: int)
    returns (r: Result<nat>)
    modifies db
    // every check precedes every write
    ensures r.Err? <==> ChequeoEjecutar(old(db.usuarios), idEmisor, idReceptor, monto).Some?
    ensures r.Err? ==>
      && r.error == ChequeoEjecutar(old(db.usuarios), idEmisor, idReceptor, monto).value
      && db.usuarios == old(db.usuarios) && db.transacciones == old(db.transacciones)
    // on success: exactly one record, and only the `saldo` of sender and receiver moves
    ensures r.Ok? ==>
      && r.value == |old(db.transacciones)|
      && db.transacciones == old(db.transacciones) +
           [Registro(idServicio, idEmisor, Some(idReceptor), monto, now, tipo, None, justificacion)]
      && db.usuarios.Keys == old(db.usuarios).Keys
      && forall k :: k in db.usuarios ==>
           db.usuarios[k] == old(db.usuarios)[k].(saldo := old(db.usuarios)[k].saldo +
                                                   DeltaEjecutar(k, idEmisor, idReceptor, monto))
    // with a sender the total `saldo` is conserved; without one it grows by `monto`
    ensures r.Ok? ==>
      Total(db.usuarios, Saldo) ==
        Total(old(db.usuarios), Saldo) + (if Truthy(idEmisor) then 0 else monto)
    // no balance becomes negative, as long as `monto` is not negative
    ensures r.Ok? && NoNegativos(old(db.usuarios), Saldo) && monto >= 0 ==> NoNegativos(db.usuarios, Saldo)
  {
    ghost var us0 := db.usuarios;
    var chequeo := ChequeoEjecutar(db.usuarios, idEmisor, idReceptor, monto);
    if chequeo.Some? {
      return Err(chequeo.value);
    }
    if Truthy(idEmisor) {
      TotalIncSaldo(db.usuarios, Str(idEmisor.value), -monto);
      db.UpdateIncSaldo(Str(idEmisor.value), -monto);
    }
    TotalIncSaldo(db.usuarios, Str(idReceptor), monto);
    db.UpdateIncSaldo(Str(idReceptor), monto);
    var id := db.InsertOne(Registro(idServicio, idEmisor, Some(idReceptor), monto, now, tipo, None, justificacion));
    return Ok(id);
  }

  // ---------------------------------------------------------------------------
  // obtener_saldo

  /** The `saldo` of the account whose plain-string `_id` is `userId`, 0 when the
      field is absent; 404 when there is no such account. */
  function ObtenerSaldo(us: Usuarios, userId: string): (r: Result<int>)
    ensures r.Ok? <==> Str(userId) in us
    ensures r.Ok? ==> r.value == Balance(us[Str(userId)], Saldo)
    ensures r.Err? ==> r.error == HttpError(404, "Usuario no encontrado")
  {
    if Str(userId) !in us then Err(HttpError(404, "Usuario no encontrado"))
    else Ok(us[Str(userId)].saldo)
  }

  /** What `obtener_saldo` reports after a successful `ejecutar_transaccion`:
      the receiver's balance went up by `monto`, and a sender other than the
      receiver went down by `monto`. */
  lemma SaldoTrasEjecutar(us0: Usuarios, us1: Usuarios, idEmisor: Option<string>, idReceptor: string, monto: int)
    requires us1.Keys == us0.Keys
    requires forall k :: k in us1 ==>
               us1[k] == us0[k].(saldo := us0[k].saldo + DeltaEjecutar(k, idEmisor, idReceptor, monto))
    requires Str(idReceptor) in us0
    ensures !(Truthy(idEmisor) && idEmisor.value == idReceptor) ==>
              ObtenerSaldo(us1, idReceptor) == Ok(ObtenerSaldo(us0, idReceptor).value + monto)
    ensures Truthy(idEmisor) && idEmisor.value != idReceptor && Str(idEmisor.value) in us0 ==>
              ObtenerSaldo(us1, idEmisor.value) == Ok(ObtenerSaldo(us0, idEmisor.value).value - monto)
    ensures Truthy(idEmisor) && idEmisor.value == idReceptor ==>
              ObtenerSaldo(us1, idReceptor) == ObtenerSaldo(us0, idReceptor)
  {
    assert us1[Str(idReceptor)].saldo == us0[Str(idReceptor)].saldo + DeltaEjecutar(Str(idReceptor), idEmisor, idReceptor, monto);
    if Truthy(idEmisor) && Str(idEmisor.value) in us0 {
      assert us1[Str(idEmisor.value)].saldo ==
        us0[Str(idEmisor.value)].saldo + DeltaEjecutar(Str(idEmisor.value), idEmisor, idReceptor, monto);
    }
  }

  // ---------------------------------------------------------------------------
  // historial_transacciones

  /** A log document together with its `_id`. */
  datatype Entrada = Entrada(id: nat, registro: Registro)

  /** The `$or` filter of the history query. */
  predicate Involucra(r: Registro, userId: string)
  {
    r.idEmisor == Some(userId) || r.idReceptor == Some(userId)
  }

  /** e is a document of the log, with its own `_id`. */
  predicate EnLog(e: Entrada, log: seq<Registro>)
  {
    e.id < |log| && log[e.id] == e.registro
  }

  predicate SinRepetidos<T(==)>(s: seq<T>)
  {
    forall i, j :: 0 <= i < j < |s| ==> s[i] != s[j]
  }

  /** Newest first: `fecha` never increases along s. */
  predicate Descendente(s: seq<Entrada>)
  {
    forall i, j :: 0 <= i < j < |s| ==> s[i].registro.fecha >= s[j].registro.fecha
  }

  /** The log in insertion order, each document with its `_id`. */
  function Indexados(log: seq<Registro>): (r: seq<Entrada>)
    ensures forall e :: e in r <==> EnLog(e, log)
    ensures SinRepetidos(r)
  {
    var r := seq(|log|, i requires 0 <= i < |log| => Entrada(i, log[i]));
    assert forall e :: EnLog(e, log) ==> r[e.id] == e;
    r
  }

  /** Prepending an element that differs from all the others keeps a sequence free of repeats. */
  lemma SinRepetidosCons<T>(x: T, s: seq<T>)
    requires SinRepetidos(s) && x !in s
    ensures SinRepetidos([x] + s)
  {
    var r := [x] + s;
    forall i, j | 0 <= i < j < |r| ensures r[i] != r[j] {
      if i == 0 {
        assert r[j] == s[j - 1];
      } else {
        assert r[i] == s[i - 1] && r[j] == s[j - 1];
      }
    }
  }

  /** Prepending an element no older than all the others keeps a sequence newest first. */
  lemma DescendenteCons(x: Entrada, s: seq<Entrada>)
    requires Descendente(s)
    requires forall y :: y in s ==> x.registro.fecha >= y.registro.fecha
    ensures Descendente([x] + s)
  {
    var r := [x] + s;
    forall i, j | 0 <= i < j < |r| ensures r[i].registro.fecha >= r[j].registro.fecha {
      assert r[j] == s[j - 1];
      if i > 0 {
        assert r[i] == s[i - 1];
      }
    }
  }

  /** The documents of s that match the filter, in their order. */
  function Filtrar(s: seq<Entrada>, userId: string): (r: seq<Entrada>)
    ensures forall e :: e in r <==> e in s && Involucra(e.registro, userId)
    ensures SinRepetidos(s) ==> SinRepetidos(r)
  {
    if s == [] then []
    else
      var rest := Filtrar(s[1..], userId);
      assert forall e :: e in s <==> e == s[0] || e in s[1..] by {
        assert s == [s[0]] + s[1..];
      }
      if Involucra(s[0].registro, userId) then
        assert SinRepetidos(s) ==> SinRepetidos([s[0]] + rest) by {
          if SinRepetidos(s) {
            assert forall j :: 0 <= j < |s[1..]| ==> s[1..][j] == s[j + 1];
            SinRepetidosCons(s[0], rest);
          }
        }
        [s[0]] + rest
      else
        assert SinRepetidos(s) ==> SinRepetidos(s[1..]) by {
          assert forall j :: 0 <= j < |s[1..]| ==> s[1..][j] == s[j + 1];
        }
        rest
  }

  /** Puts e into the newest-first sequence s, before the first document that is not newer. */
  function Insertar(e: Entrada, s: seq<Entrada>): seq<Entrada>
  {
    if s == [] || s[0].registro.fecha <= e.registro.fecha then [e] + s
    else [s[0]] + Insertar(e, s[1..])
  }

  /** Insertar adds e and nothing else. */
  lemma {:induction false} InsertarMultiset(e: Entrada, s: seq<Entrada>)
    ensures multiset(Insertar(e, s)) == multiset(s) + multiset{e}
  {
    if s != [] && s[0].registro.fecha > e.registro.fecha {
      InsertarMultiset(e, s[1..]);
      assert s == [s[0]] + s[1..];
    }
  }

  /** Every document of Insertar(e, s) is e or a document of s. */
  lemma InsertarMiembros(e: Entrada, s: seq<Entrada>)
    ensures forall y :: y in Insertar(e, s) ==> y == e || y in s
  {
    InsertarMultiset(e, s);
    forall y | y in Insertar(e, s) ensures y == e || y in s {
      assert y in multiset(Insertar(e, s));
    }
  }

  /** Insertar keeps a sequence newest first. */
  lemma {:induction false} InsertarDescendente(e: Entrada, s: seq<Entrada>)
    requires Descendente(s)
    ensures Descendente(Insertar(e, s))
  {
    if s == [] || s[0].registro.fecha <= e.registro.fecha {
      forall y | y in s ensures e.registro.fecha >= y.registro.fecha {
        var j :| 0 <= j < |s| && s[j] == y;
        assert s[0].registro.fecha >= s[j].registro.fecha;
      }
      DescendenteCons(e, s);
    } else {
      var tail := s[1..];
      assert Descendente(tail) by {
        assert forall j :: 0 <= j < |tail| ==> tail[j] == s[j + 1];
      }
      InsertarDescendente(e, tail);
      InsertarMiembros(e, tail);
      forall y | y in Insertar(e, tail) ensures s[0].registro.fecha >= y.registro.fecha {
        if y != e {
          var j :| 0 <= j < |tail| && tail[j] == y;
          assert s[j + 1] == y;
        }
      }
      DescendenteCons(s[0], Insertar(e, tail));
    }
  }

  /** Insertar of a new document keeps a sequence free of repeats. */
  lemma {:induction false} InsertarSinRepetidos(e: Entrada, s: seq<Entrada>)
    requires SinRepetidos(s) && e !in s
    ensures SinRepetidos(Insertar(e, s))
  {
    if s == [] || s[0].registro.fecha <= e.registro.fecha {
      SinRepetidosCons(e, s);
    } else {
      var tail := s[1..];
      assert SinRepetidos(tail) && e !in tail && s[0] !in tail by {
        assert forall j :: 0 <= j < |tail| ==> tail[j] == s[j + 1];
      }
      InsertarSinRepetidos(e, tail);
      InsertarMiembros(e, tail);
      SinRepetidosCons(s[0], Insertar(e, tail));
    }
  }

  /** `.sort("fecha", -1)`: newest first, the same documents. */
  function Ordenar(s: seq<Entrada>): (r: seq<Entrada>)
    ensures Descendente(r)
    ensures multiset(r) == multiset(s)
    ensures SinRepetidos(s) ==> SinRepetidos(r)
  {
    if s == [] then []
    else
      var tail := s[1..];
      assert s == [s[0]] + tail;
      var rest := Ordenar(tail);
      InsertarDescendente(s[0], rest);
      InsertarMultiset(s[0], rest);
      assert SinRepetidos(s) ==> SinRepetidos(Insertar(s[0], rest)) by {
        if SinRepetidos(s) {
          assert forall j :: 0 <= j < |tail| ==> tail[j] == s[j + 1];
          assert s[0] !in tail;
          assert s[0] !in multiset(rest);
          InsertarSinRepetidos(s[0], rest);
        }
      }
      Insertar(s[0], rest)
  }

  /** The cursor of the history query: every document that names `userId` as
      sender or receiver, each once, newest first. */
  function Cursor(log: seq<Registro>, userId: string): (r: seq<Entrada>)
    ensures forall e :: e in r <==> EnLog(e, log) && Involucra(e.registro, userId)
    ensures SinRepetidos(r)
    ensures Descendente(r)
  {
    var filtrados := Filtrar(Indexados(log), userId);
    var r := Ordenar(filtrados);
    assert forall e :: e in r <==> e in filtrados by {
      forall e ensures e in r <==> e in filtrados {
        assert e in r <==> e in multiset(r);
      }
    }
    r
  }

  /** The history of `userId`: the loop over the cursor, collecting each document. */
  method HistorialTransacciones(db: Database, userId: string) returns (historial: seq<Entrada>)
    ensures forall e :: e in historial <==> EnLog(e, db.transacciones) && Involucra(e.registro, userId)
    ensures SinRepetidos(historial)
    ensures Descendente(historial)
  {
    var cursor := Cursor(db.transacciones, userId);
    historial := [];
    var i := 0;
    while i < |cursor|
      invariant 0 <= i <= |cursor|
      invariant historial == cursor[..i]
    {
      historial := historial + [cursor[i]];
      i := i + 1;
    }
    assert cursor[..|cursor|] == cursor;
  }

  /** A record just appended shows up in the history of both of its parties. */
  lemma HistorialIncluyeNuevo(log: seq<Registro>, r: Registro, userId: string)
    requires Involucra(r, userId)
    ensures Entrada(|log|, r) in Cursor(log + [r], userId)
    ensures forall e :: e in Cursor(log, userId) ==> e in Cursor(log + [r], userId)
  {
    forall e | e in Cursor(log, userId) ensures e in Cursor(log + [r], userId) {
      assert EnLog(e, log + [r]);
    }
  }

  // ---------------------------------------------------------------------------
  // transferir_creditos

  /** The checks of `transferir_creditos`, in order: the caller is the sender
      (403), both ids are valid ObjectIds (400), both accounts exist (404), the
      sender's `moneda_virtual.saldo` covers `monto` (400). */
  function ChequeoTransferir(us: Usuarios, datos: Transaccion, userId: string, validOid: string -> bool): (r: Option<Error>)
    ensures r.None? <==>
      && datos.idEmisor == Some(userId)
      && EsObjectIdValido(validOid, datos.idEmisor) && EsObjectIdValido(validOid, datos.idReceptor)
      && ObjectId(userId) in us && ObjectId(datos.idReceptor.value) in us
      && us[ObjectId(userId)].monedaSaldo >= datos.monto
    ensures datos.idEmisor != Some(userId) ==>
      r == Some(HttpError(403, "No puedes transferir como otro usuario"))
    ensures datos.idEmisor == Some(userId) &&
            !(EsObjectIdValido(validOid, datos.idEmisor) && EsObjectIdValido(validOid, datos.idReceptor)) ==>
      r == Some(HttpError(400, "ID inválido"))
    ensures datos.idEmisor == Some(userId) &&
            EsObjectIdValido(validOid, datos.idEmisor) && EsObjectIdValido(validOid, datos.idReceptor) &&
            (ObjectId(userId) !in us || ObjectId(datos.idReceptor.value) !in us) ==>
      r == Some(HttpError(404, "Emisor o receptor no encontrado"))
    ensures datos.idEmisor == Some(userId) &&
            EsObjectIdValido(validOid, datos.idEmisor) && EsObjectIdValido(validOid, datos.idReceptor) &&
            ObjectId(userId) in us && ObjectId(datos.idReceptor.value) in us &&
            us[ObjectId(userId)].monedaSaldo < datos.monto ==>
      r == Some(HttpError(400, "Saldo insuficiente"))
  {
    if datos.idEmisor != Some(userId) then Some(HttpError(403, "No puedes transferir como otro usuario"))
    else if !EsObjectIdValido(validOid, datos.idEmisor) || !EsObjectIdValido(validOid, datos.idReceptor) then
      Some(HttpError(400, "ID inválido"))
    else if ObjectId(userId) !in us || ObjectId(datos.idReceptor.value) !in us then
      Some(HttpError(404, "Emisor o receptor no encontrado"))
    else if us[ObjectId(userId)].monedaSaldo < datos.monto then Some(HttpError(400, "Saldo insuficiente"))
    else None
  }

  /** The log document of a validated `Transaccion`: `datos.dict()`, with `fecha`
      always the request's own (a `datetime` is never falsy). */
  function RegistroDe(t: Transaccion): Registro
  {
    Registro(t.idServicio, t.idEmisor, t.idReceptor, t.monto, t.fecha, t.tipo, t.estado, t.justificacion)
  }

  /** The two `$set`s of `transferir_creditos`, written from balances read before
      either write: sender := old sender - monto, then receiver := old receiver + monto. */
  function AplicarTransferencia(us: Usuarios, e: DocId, r: DocId, monto: int, now: int): Usuarios
    requires e in us && r in us
  {
    var saldoEmisor := us[e].monedaSaldo;
    var saldoReceptor := us[r].monedaSaldo;
    SetMoneda(SetMoneda(us, e, saldoEmisor - monto, now), r, saldoReceptor + monto, now)
  }

  /** Between two different accounts the transfer conserves the total `moneda_virtual.saldo`. */
  lemma TransferenciaConserva(us: Usuarios, e: DocId, r: DocId, monto: int, now: int)
    requires e in us && r in us && e != r
    ensures Total(AplicarTransferencia(us, e, r, monto, now), MonedaSaldo) == Total(us, MonedaSaldo)
  {
    var us1 := SetMoneda(us, e, us[e].monedaSaldo - monto, now);
    TotalActualizar(us, e, us1[e], MonedaSaldo);
    TotalActualizar(us1, r, us1[r].(monedaSaldo := us[r].monedaSaldo + monto, ultimaActualizacion := Some(now)), MonedaSaldo);
  }

  /** A transfer to oneself leaves old + monto: the second `$set` overwrites the
      first, so the total grows by `monto`. */
  lemma TransferenciaPropiaCreaCreditos(us: Usuarios, e: DocId, monto: int, now: int)
    requires e in us
    ensures AplicarTransferencia(us, e, e, monto, now)[e].monedaSaldo == us[e].monedaSaldo + monto
    ensures Total(AplicarTransferencia(us, e, e, monto, now), MonedaSaldo) == Total(us, MonedaSaldo) + monto
  {
    var us1 := SetMoneda(us, e, us[e].monedaSaldo - monto, now);
    TotalActualizar(us, e, us1[e], MonedaSaldo);
    TotalActualizar(us1, e, us1[e].(monedaSaldo := us[e].monedaSaldo + monto, ultimaActualizacion := Some(now)), MonedaSaldo);
  }

  /** One concrete case: an account holding 100 that sends 10 to itself ends with 110. */
  lemma TransferenciaPropiaEjemplo()
    ensures var us := map[ObjectId("a") := Usuario(None, 0, 100, None, 0, Missing, Missing)];
            AplicarTransferencia(us, ObjectId("a"), ObjectId("a"), 10, 0)[ObjectId("a")].monedaSaldo == 110
  {
  }

  /** The transfer as evidently intended: the receiver's balance is read after the
      sender's write (as a pair of `$inc`s would do). */
  function AplicarTransferenciaCorregida(us: Usuarios, e: DocId, r: DocId, monto: int, now: int): Usuarios
    requires e in us && r in us
  {
    var us1 := SetMoneda(us, e, us[e].monedaSaldo - monto, now);
    SetMoneda(us1, r, us1[r].monedaSaldo + monto, now)
  }

  /** The corrected transfer conserves the total for every pair of accounts. */
  lemma TransferenciaCorregidaConserva(us: Usuarios, e: DocId, r: DocId, monto: int, now: int)
    requires e in us && r in us
    ensures Total(AplicarTransferenciaCorregida(us, e, r, monto, now), MonedaSaldo) == Total(us, MonedaSaldo)
  {
    var ue := us[e].(monedaSaldo := us[e].monedaSaldo - monto, ultimaActualizacion := Some(now));
    var us1 := us[e := ue];
    assert SetMoneda(us, e, us[e].monedaSaldo - monto, now) == us1;
    var ur := us1[r].(monedaSaldo := us1[r].monedaSaldo + monto, ultimaActualizacion := Some(now));
    assert AplicarTransferenciaCorregida(us, e, r, monto, now) == us1[r := ur];
    TotalActualizar(us, e, ue, MonedaSaldo);
    TotalActualizar(us1, r, ur, MonedaSaldo);
  }

  /** With the correction a transfer to oneself leaves the balance as it was, and
      between two different accounts nothing else changes. */
  lemma TransferenciaCorregidaCoincide(us: Usuarios, e: DocId, r: DocId, monto: int, now: int)
    requires e in us && r in us
    ensures e == r ==> AplicarTransferenciaCorregida(us, e, r, monto, now)[e].monedaSaldo == us[e].monedaSaldo
    ensures e != r ==> AplicarTransferenciaCorregida(us, e, r, monto, now) == AplicarTransferencia(us, e, r, monto, now)
  {
  }

  /** The checked transfer of `moneda_virtual.saldo`, looking accounts up by
      ObjectId. It logs the request first, then writes both balances from the
      values it read before the log write; it returns the request. */
  method TransferirCreditos(db: Database, datos: Transaccion, userId: string, validOid: string -> bool, now: int)
    returns (r: Result<Transaccion>)
    requires TransaccionValida(datos)
    modifies db
    // every check precedes every write
    ensures r.Err? <==> ChequeoTransferir(old(db.usuarios), datos, userId, validOid).Some?
    ensures r.Err? ==>
      && r.error == ChequeoTransferir(old(db.usuarios), datos, userId, validOid).value
      && db.usuarios == old(db.usuarios) && db.transacciones == old(db.transacciones)
    ensures r.Ok? ==>
      && r.value == datos
      && db.transacciones == old(db.transacciones) + [RegistroDe(datos)]
      && db.usuarios == AplicarTransferencia(old(db.usuarios), ObjectId(userId), ObjectId(datos.idReceptor.value),
                                             datos.monto, now)
    // account by account: only `moneda_virtual` of the two parties changes; with
    // sender == receiver the receiver's write wins
    ensures r.Ok? ==>
      var e, rc := ObjectId(userId), ObjectId(datos.idReceptor.value);
      && db.usuarios.Keys == old(db.usuarios).Keys
      && (forall k :: k in db.usuarios && k != e && k != rc ==> db.usuarios[k] == old(db.usuarios)[k])
      && db.usuarios[rc] == old(db.usuarios)[rc].(monedaSaldo := old(db.usuarios)[rc].monedaSaldo + datos.monto,
                                                  ultimaActualizacion := Some(now))
      && (e != rc ==>
            db.usuarios[e] == old(db.usuarios)[e].(monedaSaldo := old(db.usuarios)[e].monedaSaldo - datos.monto,
                                                   ultimaActualizacion := Some(now)))
    // the total is conserved between two accounts and grows by `monto` on a self-transfer
    ensures r.Ok? ==>
      Total(db.usuarios, MonedaSaldo) ==
        Total(old(db.usuarios), MonedaSaldo) + (if datos.idReceptor == Some(userId) then datos.monto else 0)
    ensures r.Ok? && NoNegativos(old(db.usuarios), MonedaSaldo) ==> NoNegativos(db.usuarios, MonedaSaldo)
  {
    var chequeo := ChequeoTransferir(db.usuarios, datos, userId, validOid);
    if chequeo.Some? {
      return Err(chequeo.value);
    }
    var e, rc := ObjectId(userId), ObjectId(datos.idReceptor.value);
    ghost var us0 := db.usuarios;
    var saldoEmisor := db.usuarios[e].monedaSaldo;
    var saldoReceptor := db.usuarios[rc].monedaSaldo;
    if e == rc {
      TransferenciaPropiaCreaCreditos(us0, e, datos.monto, now);
    } else {
      TransferenciaConserva(us0, e, rc, datos.monto, now);
    }
    var _ := db.InsertOne(RegistroDe(datos));
    db.UpdateSetMoneda(e, saldoEmisor - datos.monto, now);
    db.UpdateSetMoneda(rc, saldoReceptor + datos.monto, now);
    return Ok(datos);
  }

  // ---------------------------------------------------------------------------
  // asignar_creditos

  /** The reply of `asignar_creditos`: the amount and the receiver its message names. */
  datatype Asignacion = Asignacion(monto: int, idReceptor: string)

  /** The log document of `asignar_creditos`: the request with `tipo`, `fecha`
      and `id_emisor` overwritten. */
  function RegistroAsignacion(datos: Transaccion, now: int): Registro
  {
    RegistroDe(datos).(tipo := "asignacion", fecha := now, idEmisor := Some("admin"))
  }

  /** The admin grant on top-level `saldo`. After the admin check it needs a
      truthy `justificacion` and `id_receptor`; it does not check that the
      receiver exists, so the record is logged even when no account matches. */
  method AsignarCreditos(db: Database, datos: Transaccion, userId: string, validOid: string -> bool, now: int)
    returns (r: Result<Asignacion>)
    requires TransaccionValida(datos)
    modifies db
    ensures r.Ok? <==>
      VerificarAdmin(old(db.usuarios), userId, validOid).Ok? &&
      Truthy(datos.justificacion) && Truthy(datos.idReceptor)
    ensures VerificarAdmin(old(db.usuarios), userId, validOid).Err? ==>
      r == Err(VerificarAdmin(old(db.usuarios), userId, validOid).error)
    ensures VerificarAdmin(old(db.usuarios), userId, validOid).Ok? &&
            !(Truthy(datos.justificacion) && Truthy(datos.idReceptor)) ==>
      r == Err(HttpError(400, "Falta justificación o receptor"))
    ensures r.Err? ==> db.usuarios == old(db.usuarios) && db.transacciones == old(db.transacciones)
    ensures r.Ok? ==>
      && r.value == Asignacion(datos.monto, datos.idReceptor.value)
      && db.transacciones == old(db.transacciones) + [RegistroAsignacion(datos, now)]
      && db.usuarios == IncSaldo(old(db.usuarios), Str(datos.idReceptor.value), datos.monto)
    // the grant never lowers any balance and adds `monto` to the total exactly when the receiver exists
    ensures r.Ok? ==>
      && db.usuarios.Keys == old(db.usuarios).Keys
      && (forall k, c :: k in old(db.usuarios) ==> Balance(db.usuarios[k], c) >= Balance(old(db.usuarios)[k], c))
      && Total(db.usuarios, Saldo) ==
           Total(old(db.usuarios), Saldo) + (if Str(datos.idReceptor.value) in old(db.usuarios) then datos.monto else 0)
  {
    var admin := VerificarAdmin(db.usuarios, userId, validOid);
    if admin.Err? {
      return Err(admin.error);
    }
    if !Truthy(datos.justificacion) || !Truthy(datos.idReceptor) {
      return Err(HttpError(400, "Falta justificación o receptor"));
    }
    TotalIncSaldo(db.usuarios, Str(datos.idReceptor.value), datos.monto);
    db.UpdateIncSaldo(Str(datos.idReceptor.value), datos.monto);
    var _ := db.InsertOne(RegistroAsignacion(datos, now));
    return Ok(Asignacion(datos.monto, datos.idReceptor.value));
  }
}

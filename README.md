# Credit ledger of the transactions API

A Dafny model of the credit ledger of a virtual-credit service. The state is
two MongoDB collections: the user accounts (`usuarios`), keyed by `_id`, and
an append-only log of movements (`transacciones_moneda`). The handlers move
credit between accounts, grant credit as an administrator, log one record per
movement and answer two queries (a balance and a history). Each handler is one
sequential step on a `Db.Database` object that holds both collections.

Modules follow the source files:

- `Base`: optional values, handler results, error kinds, request-validation outcomes.
- `Db`: account and log documents, the `update_one`/`insert_one` primitives, and the sum of a balance field over all accounts.
- `ModeloTransaccion` (`app/models/transaccion.py`): the `Transaccion` and `ServicioTransaccion` request models, their defaults and constraints.
- `Credito` (`app/models/credito.py`): the `AsignacionCreditoRequest` request model.
- `Transacciones` (`app/routers/transacciones.py`): `verificar_admin`, `ejecutar_transaccion`, `obtener_saldo`, `historial_transacciones`, `transferir_creditos`, `asignar_creditos`.
- `Admin` (`app/routers/admin.py`): `asignar_creditos_admin`.
- `Escenario`: a client method showing what a caller can conclude from the contracts alone.

How the code is modelled:

- **Three balance fields.** An account carries top-level `saldo`, `moneda_virtual.saldo` and `saldo_creditos`. An absent field reads as 0, as every `.get(..., 0)` and `$inc` in the code treats it.
- **Two kinds of `_id` lookup.** Some handlers query `{"_id": s}` with the raw string: `ejecutar_transaccion`, `obtener_saldo` and the update in `asignar_creditos`. Others query `{"_id": ObjectId(s)}`: `verificar_admin`, `transferir_creditos` and `asignar_creditos_admin`. MongoDB never matches a string against an ObjectId, so keys are `Db.DocId`, which is either `Str(s)` or `ObjectId(hex)`.
- **Library and clock inputs.** `ObjectId.is_valid` is the parameter `validOid: string -> bool`. `ObjectId(s)` raises on an invalid `s`; the handlers do not catch that, so it is the error `InvalidId`. `datetime.utcnow()` is the parameter `now`.
- **No upsert.** `update_one` on an `_id` that matches no account changes nothing.
- **Log ids.** `insert_one` gives a document the `_id` equal to its position in the log.
- **Validated requests.** The framework validates a request body before a handler runs. So `TransferirCreditos` and `AsignarCreditos` require `monto > 0` (`TransaccionValida`), and `AsignarCreditosAdmin` requires `Credito.EsValida`. The validators themselves are modelled as functions on bodies whose keys may be missing.
- **Absent versus `null` names.** An account's `nombres` and `apellidos` are `Base.Field` values: `Missing` when the key is absent (`usuario['nombres']` raises a KeyError) and `Given(None)` when stored as `null` (the reply formats it as "None").
- **The code as written.** `ejecutar_transaccion` never checks the sign of `monto`, and `asignar_creditos` never checks that the receiver exists; the model keeps both.

## Model

| member | source | states |
|---|---|---|
| `Credito.Validar` | app/models/credito.py:4-7 | a body is accepted iff `usuario_id` is present, `monto` is present and > 0, and `justificacion` is present with at least 10 characters; an accepted body becomes the request unchanged; a rejected one lists every violated constraint |
| `Credito.AceptadaSinCambios` | app/models/credito.py:4-7 | a request that carries all its fields is accepted unchanged iff it meets all three constraints |
| `Credito.MontoNoPositivoRechazado` | app/models/credito.py:6 | `monto <= 0` is rejected whatever the other fields are, with the `gt=0` error |
| `Credito.LongitudJustificacion` | app/models/credito.py:7 | with the other fields valid, acceptance holds iff the length of `justificacion` is >= 10; exactly 10 is accepted; a missing `justificacion` is rejected |
| `Credito.UsuarioIdRequerido` | app/models/credito.py:5 | `usuario_id` has no default: a body without it is rejected |
| `ModeloTransaccion.ValidarTransaccion` | app/models/transaccion.py:6-16 | a `Transaccion` body is accepted iff `monto` is present and > 0 and `tipo` is present; every given field is kept and each missing one takes its own default (ids and `justificacion` `None`, `estado` "completed", `fecha` now); errors name `monto` and `tipo` |
| `ModeloTransaccion.TransaccionIdaYVuelta` | app/models/transaccion.py:6-16 | a `Transaccion` that carries all its fields survives validation unchanged iff `monto > 0` |
| `ModeloTransaccion.DefectosTransaccion` | app/models/transaccion.py:9-16 | a body giving only `monto` and `tipo` validates to the record made of all the defaults: ids and `justificacion` `None`, `estado` "completed", `fecha` the current time |
| `ModeloTransaccion.TipoRequeridoSinRestriccion` | app/models/transaccion.py:14 | `tipo` is required and has no default; any string is accepted for it |
| `ModeloTransaccion.ValidarServicio` | app/models/transaccion.py:19-27 | accepted iff the three ids are present and `monto` is present and > 0; `descripcion` defaults to `None` and `estado` to "completed" |
| `ModeloTransaccion.ServicioConsigoMismoAceptado` | app/models/transaccion.py:19-27 | a payment whose buyer and provider are the same user passes validation |
| `Db.Database.InsertOne` | app/routers/transacciones.py:77-80 | appends exactly the given document; its `_id` is its position in the log; accounts are untouched |
| `Db.Database.UpdateIncSaldo` | app/routers/transacciones.py:54-64 | `$inc` of `saldo` on one account, a no-op when no account matches; the log is untouched |
| `Db.Database.UpdateSetMoneda` | app/routers/transacciones.py:139-154 | `$set` of `moneda_virtual.saldo` and its time stamp on one account, a no-op when none matches |
| `Db.Database.UpdateSetCreditos` | app/routers/admin.py:28-36 | `$set` of `saldo_creditos` and `moneda_virtual.ultima_actualizacion` on one account, a no-op when none matches |
| `Db.TotalSin` | app/routers/transacciones.py:53-64 | the total of a balance field over all accounts splits into any one account plus the rest |
| `Db.TotalActualizar` | app/routers/transacciones.py:53-64 | replacing one account changes the total by exactly the change in that account's field |
| `Db.TotalIncSaldo` | app/routers/transacciones.py:60-64 | a `$inc` of `delta` changes the total `saldo` by `delta` when the id matches an account, and by 0 otherwise |
| `Transacciones.VerificarAdmin` | app/routers/transacciones.py:18-22 | passes, returning the caller's id, iff the caller's ObjectId account exists with `rol == "admin"`; a malformed id raises; otherwise 403 |
| `Transacciones.ChequeoEjecutar` | app/routers/transacciones.py:35-50 | all checks pass iff (the sender is truthy ⇒ it exists with `saldo >= monto`) and the receiver exists; the errors come in source order, each pinned: "Emisor no encontrado", then "Saldo insuficiente", then "Receptor no encontrado" |
| `Transacciones.EjecutarTransaccion` | app/routers/transacciones.py:24-82 | on any failed check nothing changes. On success exactly the given record (with `fecha = now`) is appended and its id returned. Only `saldo` moves: −monto for a truthy sender, +monto for the receiver, so a self-transfer nets 0. The total is conserved with a sender and grows by `monto` without one. Non-negativity is kept when `monto >= 0` |
| `Transacciones.ObtenerSaldo` | app/routers/transacciones.py:84-89 | returns the account's `saldo` (0 when absent) iff the string `_id` exists; otherwise 404 |
| `Transacciones.SaldoTrasEjecutar` | app/routers/transacciones.py:84-89 | after a successful `ejecutar_transaccion` the balance query shows: receiver +monto, a distinct sender −monto, a self-transfer unchanged |
| `Transacciones.Indexados` | app/routers/transacciones.py:93 | the log with each document's `_id`: exactly the log's documents, with no repeats |
| `Transacciones.Filtrar` | app/routers/transacciones.py:93-97 | keeps exactly the documents whose `id_emisor` or `id_receptor` is the user, adding no repeats |
| `Transacciones.InsertarMultiset` | app/routers/transacciones.py:98 | inserting into the sorted cursor adds exactly one document |
| `Transacciones.InsertarDescendente` | app/routers/transacciones.py:98 | inserting keeps the cursor ordered by `fecha` non-increasing |
| `Transacciones.InsertarSinRepetidos` | app/routers/transacciones.py:98 | inserting a new document keeps the cursor free of repeats |
| `Transacciones.Ordenar` | app/routers/transacciones.py:98 | `sort("fecha", -1)` yields a permutation ordered by `fecha` non-increasing |
| `Transacciones.Cursor` | app/routers/transacciones.py:93-98 | the query yields exactly the user's documents, each once, newest first |
| `Transacciones.HistorialTransacciones` | app/routers/transacciones.py:91-103 | returns exactly the log documents naming the user as sender or receiver, each once, with `fecha` non-increasing; changes nothing |
| `Transacciones.HistorialIncluyeNuevo` | app/routers/transacciones.py:91-103 | after an append, the history of either party contains the new document and everything it held before |
| `Transacciones.ChequeoTransferir` | app/routers/transacciones.py:108-130 | all checks pass iff caller = `id_emisor`, both ids are valid ObjectIds, both accounts exist, and the sender's `moneda_virtual.saldo >= monto`. The failures come in order: 403, then 400 (invalid id), then 404, then 400 (insufficient balance) |
| `Transacciones.TransferirCreditos` | app/routers/transacciones.py:105-156 | on any failed check nothing changes. On success it returns the request and appends exactly `datos.dict()`. Only the two parties' `moneda_virtual` changes, each `$set` from a value read before the writes: receiver = old + monto, a distinct sender = old − monto. The total is conserved between two accounts and grows by `monto` on a self-transfer. Non-negativity is kept |
| `Transacciones.TransferenciaConserva` | app/routers/transacciones.py:139-154 | between two different accounts the two `$set`s conserve the total `moneda_virtual.saldo` |
| `Transacciones.TransferenciaPropiaCreaCreditos` | app/routers/transacciones.py:139-154 | on a self-transfer the second `$set` overwrites the first: the balance ends at old + monto and the total grows by `monto` |
| `Transacciones.TransferenciaPropiaEjemplo` | app/routers/transacciones.py:139-154 | concretely: 100 sent to oneself leaves 110 |
| `Transacciones.TransferenciaCorregidaConserva` | app/routers/transacciones.py:139-154 | reading the receiver after the sender's write conserves the total for every pair of accounts |
| `Transacciones.TransferenciaCorregidaCoincide` | app/routers/transacciones.py:139-154 | the corrected transfer leaves a self-transfer's balance unchanged and agrees with the code on two different accounts |
| `Transacciones.AsignarCreditos` | app/routers/transacciones.py:160-174 | 403 (or a raise on a malformed id) unless the caller is an admin; then 400 unless `justificacion` and `id_receptor` are truthy; nothing changes on an error. On success receiver `saldo` +monto (no-op if no account matches) and one record is appended with `tipo = "asignacion"`, `id_emisor = "admin"`, `fecha = now`. No balance decreases; the total grows by `monto` iff the receiver exists |
| `Admin.ChequeoAsignacionAdmin` | app/routers/admin.py:12-23 | all checks pass iff the caller's id is valid and names an admin, and the target id is valid and names an account. The failures come in order: a raise on a malformed caller id, 403, 400, 404 |
| `Admin.AsignarCreditosAdmin` | app/routers/admin.py:10-50 | on any failed check nothing changes. Otherwise the target's `saldo_creditos` becomes old + monto and its `moneda_virtual.ultima_actualizacion` becomes now; nothing else changes; exactly one record is appended. The reply's `nuevo_saldo` equals the stored balance and a name stored as `null` is rendered "None"; an absent `nombres`/`apellidos` key gives a KeyError after the writes. No balance decreases and the total `saldo_creditos` grows by exactly `monto` |

## Left out

- Floating point: amounts and balances are integers, with no rounding.
- Async execution, Mongo sessions, atomicity and concurrent requests: each handler is one sequential step. The unused `session` parameter of `ejecutar_transaccion` is dropped.
- One `now` stands for all the `datetime.utcnow()` calls inside one handler, although they are distinct readings of the clock.
- Authentication: `get_current_user` and its 401 errors, and the JWT-based `verificar_admin` that the local one shadows. The caller's id is a trusted input.
- HTTP routing, URL prefixes and the responses to rejected bodies: the framework validates bodies before a handler runs, and the application's handler answers every validation error with status 400. That decides the order of such a 400 against a dependency's 403. The validators are modelled as functions, and the handlers require their outcome.
- The text of reply messages: the replies carry the values the f-strings format.
- `str(_id)` in replies and history entries: ids are kept as log positions.
- A log key that an insert leaves out is not distinguished from one stored as `None`. The history filter treats them alike.
- Account documents whose `moneda_virtual` is stored as `null`, or whose balance fields hold something other than a number: balances are integers. So the model does not capture that `obtener_saldo` returns such a stored value as it is, that `float(...)` in `asignar_creditos_admin` accepts a numeric string, or that `$inc` on a non-number fails.
- `ObjectId(s)` is treated as injective on strings, so hex-digit case is not normalised.
- The two-phase service request/accept flow, pending state, service-history partitioning and counterparty enrichment are not part of the modelled handlers.
- HistorialTransacciones: does not state the order among documents with equal `fecha`, because MongoDB does not fix it. `Ordenar` picks one order; the contract allows any.

## Findings

| source | as written | input that shows it | evidently intended | confidence | as-written member | corrected member |
|---|---|---|---|---|---|---|
| app/routers/transacciones.py:139-154 | the receiver's new `moneda_virtual.saldo` is computed from the balance read before the sender's write | a user holding 100 transfers 10 to themselves and ends with 110 | a self-transfer leaves the balance at 100, and every transfer conserves the total | high; not executed | `Transacciones.TransferenciaPropiaCreaCreditos` | `Transacciones.TransferenciaCorregidaConserva` |

`Transacciones.TransferirCreditos` models the handler as written. The corrected transfer `Transacciones.AplicarTransferenciaCorregida` reads the receiver after the sender's write, as two `$inc`s would. It agrees with the code whenever sender and receiver differ.

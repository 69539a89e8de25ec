/** The request and record models of a credit movement (`Transaccion`) and of a
    service payment (`ServicioTransaccion`): their fields, defaults and constraints. */
module ModeloTransaccion {
  import opened Base

  /** The default `estado` of both models. */
  const EstadoPorDefecto: string := "completed"

  /** A validated `Transaccion`. `fecha` is a timestamp; `tipo` is any string. */
  datatype Transaccion = Transaccion(
    idServicio: Option<string>,
    idEmisor: Option<string>,
    idReceptor: Option<string>,
    monto: int,
    fecha: int,
    tipo: string,
    estado: Option<string>,
    justificacion: Option<string>)

  /** A `Transaccion` body as it arrives: every key may be missing; an
      `Optional` field may be given as `None`. */
  datatype TransaccionEntrada = TransaccionEntrada(
    idServicio: Field<Option<string>>,
    idEmisor: Field<Option<string>>,
    idReceptor: Field<Option<string>>,
    monto: Field<int>,
    fecha: Field<int>,
    tipo: Field<string>,
    estado: Field<Option<string>>,
    justificacion: Field<Option<string>>)

  /** The one constraint a `Transaccion` carries: `monto > 0`. */
  predicate TransaccionValida(t: Transaccion)
  {
    t.monto > 0
  }

  /** The value of an optional field, or its default when the key is missing. */
  function OrDefault<T>(f: Field<T>, default: T): T
  {
    if f.Given? then f.value else default
  }

  /** Validation of a `Transaccion` body; `now` is the clock reading used by the
      `fecha` default factory. */
  function ValidarTransaccion(e: TransaccionEntrada, now: int): (r: Validated<Transaccion>)
    // accepted exactly when `monto` is present and positive and `tipo` is present
    ensures r.Valid? <==> e.monto.Given? && e.monto.value > 0 && e.tipo.Given?
    ensures r.Valid? ==> TransaccionValida(r.value)
    // every field given is kept; a missing one takes its own default
    ensures r.Valid? ==>
      && r.value.idServicio == (if e.idServicio.Given? then e.idServicio.value else None)
      && r.value.idEmisor == (if e.idEmisor.Given? then e.idEmisor.value else None)
      && r.value.idReceptor == (if e.idReceptor.Given? then e.idReceptor.value else None)
      && r.value.monto == e.monto.value
      && r.value.fecha == (if e.fecha.Given? then e.fecha.value else now)
      && r.value.tipo == e.tipo.value
      && r.value.estado == (if e.estado.Given? then e.estado.value else Some(EstadoPorDefecto))
      && r.value.justificacion == (if e.justificacion.Given? then e.justificacion.value else None)
    ensures r.Invalid? ==>
      && r.errors != []
      && (e.monto.Missing? ==> Required("monto") in r.errors)
      && (e.monto.Given? && e.monto.value <= 0 ==> NotGreaterThan("monto", 0) in r.errors)
      && (e.tipo.Missing? ==> Required("tipo") in r.errors)
  {
    var errMonto :=
      if e.monto.Missing? then [Required("monto")]
      else if e.monto.value <= 0 then [NotGreaterThan("monto", 0)]
      else [];
    var errTipo := if e.tipo.Missing? then [Required("tipo")] else [];
    var errors := errMonto + errTipo;
    if errors == [] then
      Valid(Transaccion(
        OrDefault(e.idServicio, None),
        OrDefault(e.idEmisor, None),
        OrDefault(e.idReceptor, None),
        e.monto.value,
        OrDefault(e.fecha, now),
        e.tipo.value,
        OrDefault(e.estado, Some(EstadoPorDefecto)),
        OrDefault(e.justificacion, None)))
    else
      Invalid(errors)
  }

  /** The body that carries every field of a `Transaccion`. */
  function CuerpoTransaccion(t: Transaccion): TransaccionEntrada
  {
    TransaccionEntrada(Given(t.idServicio), Given(t.idEmisor), Given(t.idReceptor), Given(t.monto),
      Given(t.fecha), Given(t.tipo), Given(t.estado), Given(t.justificacion))
  }

  /** A `Transaccion` survives validation unchanged exactly when `monto > 0`. */
  lemma TransaccionIdaYVuelta(t: Transaccion, now: int)
    ensures ValidarTransaccion(CuerpoTransaccion(t), now) == Valid(t) <==> TransaccionValida(t)
  {
  }

  /** The defaults: `estado` is "completed", the three ids and `justificacion`
      are `None`, and `fecha` is the current time. */
  lemma DefectosTransaccion(monto: int, tipo: string, now: int)
    requires monto > 0
    ensures ValidarTransaccion(
              TransaccionEntrada(Missing, Missing, Missing, Given(monto), Missing, Given(tipo), Missing, Missing), now)
            == Valid(Transaccion(None, None, None, monto, now, tipo, Some("completed"), None))
  {
  }

  /** `tipo` is required, and any string is accepted for it. */
  lemma TipoRequeridoSinRestriccion(e: TransaccionEntrada, now: int)
    requires e.monto.Given? && e.monto.value > 0
    ensures e.tipo.Missing? ==> ValidarTransaccion(e, now).Invalid? && Required("tipo") in ValidarTransaccion(e, now).errors
    ensures e.tipo.Given? ==> ValidarTransaccion(e, now).Valid? && ValidarTransaccion(e, now).value.tipo == e.tipo.value
  {
  }

  /** A validated `ServicioTransaccion`. */
  datatype ServicioTransaccion = ServicioTransaccion(
    servicioId: string,
    compradorId: string,
    proveedorId: string,
    monto: int,
    descripcion: Option<string>,
    estado: Option<string>)

  /** A `ServicioTransaccion` body as it arrives. */
  datatype ServicioEntrada = ServicioEntrada(
    servicioId: Field<string>,
    compradorId: Field<string>,
    proveedorId: Field<string>,
    monto: Field<int>,
    descripcion: Field<Option<string>>,
    estado: Field<Option<string>>)

  /** Validation of a `ServicioTransaccion` body. */
  function ValidarServicio(e: ServicioEntrada): (r: Validated<ServicioTransaccion>)
    // accepted exactly when the three ids are present and `monto` is present and positive;
    // nothing relates `compradorId` to `proveedorId`
    ensures r.Valid? <==>
      e.servicioId.Given? && e.compradorId.Given? && e.proveedorId.Given? &&
      e.monto.Given? && e.monto.value > 0
    ensures r.Valid? ==>
      && r.value.servicioId == e.servicioId.value
      && r.value.compradorId == e.compradorId.value
      && r.value.proveedorId == e.proveedorId.value
      && r.value.monto == e.monto.value
      && r.value.descripcion == (if e.descripcion.Given? then e.descripcion.value else None)
      && r.value.estado == (if e.estado.Given? then e.estado.value else Some(EstadoPorDefecto))
    ensures r.Invalid? ==>
      && r.errors != []
      && (e.servicioId.Missing? ==> Required("servicio_id") in r.errors)
      && (e.compradorId.Missing? ==> Required("comprador_id") in r.errors)
      && (e.proveedorId.Missing? ==> Required("proveedor_id") in r.errors)
      && (e.monto.Given? && e.monto.value <= 0 ==> NotGreaterThan("monto", 0) in r.errors)
  {
    var errIds :=
      (if e.servicioId.Missing? then [Required("servicio_id")] else []) +
      (if e.compradorId.Missing? then [Required("comprador_id")] else []) +
      (if e.proveedorId.Missing? then [Required("proveedor_id")] else []);
    var errMonto :=
      if e.monto.Missing? then [Required("monto")]
      else if e.monto.value <= 0 then [NotGreaterThan("monto", 0)]
      else [];
    var errors := errIds + errMonto;
    if errors == [] then
      Valid(ServicioTransaccion(e.servicioId.value, e.compradorId.value, e.proveedorId.value,
        e.monto.value, OrDefault(e.descripcion, None), OrDefault(e.estado, Some(EstadoPorDefecto))))
    else
      Invalid(errors)
  }

  /** A payment from a user to that same user passes validation. */
  lemma ServicioConsigoMismoAceptado(servicio: string, usuario: string, monto: int)
    requires monto > 0
    ensures ValidarServicio(ServicioEntrada(Given(servicio), Given(usuario), Given(usuario),
              Given(monto), Missing, Missing))
            == Valid(ServicioTransaccion(servicio, usuario, usuario, monto, None, Some("completed")))
  {
  }
}

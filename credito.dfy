/** The request body of the administrative credit grant (`AsignacionCreditoRequest`)
    and the constraints its fields carry. */
module Credito {
  import opened Base

  /** The shortest accepted `justificacion`. */
  const MinJustificacion: nat := 10

  /** A validated grant request. */
  datatype AsignacionCreditoRequest = AsignacionCreditoRequest(
    usuarioId: string,
    monto: int,
    justificacion: string)

  /** The request body as it arrives: each field may be missing. */
  datatype AsignacionEntrada = AsignacionEntrada(
    usuarioId: Field<string>,
    monto: Field<int>,
    justificacion: Field<string>)

  /** The constraints a validated request satisfies: `monto > 0` and a
      `justificacion` of at least ten characters. */
  predicate EsValida(a: AsignacionCreditoRequest)
  {
    a.monto > 0 && |a.justificacion| >= MinJustificacion
  }

  /** The field constraints applied to a request body. */
  function Validar(e: AsignacionEntrada): (r: Validated<AsignacionCreditoRequest>)
    // a body is accepted exactly when every field is present and meets its constraint
    ensures r.Valid? <==>
      && e.usuarioId.Given?
      && e.monto.Given? && e.monto.value > 0
      && e.justificacion.Given? && |e.justificacion.value| >= MinJustificacion
    // an accepted body becomes the request unchanged, and the request is valid
    ensures r.Valid? ==>
      && r.value == AsignacionCreditoRequest(e.usuarioId.value, e.monto.value, e.justificacion.value)
      && EsValida(r.value)
    // a rejected body reports every violated constraint
    ensures r.Invalid? ==>
      && (e.usuarioId.Missing? ==> Required("usuario_id") in r.errors)
      && (e.monto.Missing? ==> Required("monto") in r.errors)
      && (e.monto.Given? && e.monto.value <= 0 ==> NotGreaterThan("monto", 0) in r.errors)
      && (e.justificacion.Missing? ==> Required("justificacion") in r.errors)
      && (e.justificacion.Given? && |e.justificacion.value| < MinJustificacion ==>
            TooShort("justificacion", MinJustificacion) in r.errors)
      && r.errors != []
  {
    var errUsuario := if e.usuarioId.Missing? then [Required("usuario_id")] else [];
    var errMonto :=
      if e.monto.Missing? then [Required("monto")]
      else if e.monto.value <= 0 then [NotGreaterThan("monto", 0)]
      else [];
    var errJust :=
      if e.justificacion.Missing? then [Required("justificacion")]
      else if |e.justificacion.value| < MinJustificacion then [TooShort("justificacion", MinJustificacion)]
      else [];
    var errors := errUsuario + errMonto + errJust;
    if errors == [] then
      Valid(AsignacionCreditoRequest(e.usuarioId.value, e.monto.value, e.justificacion.value))
    else
      Invalid(errors)
  }

  /** The body that carries every field of a request. */
  function Cuerpo(a: AsignacionCreditoRequest): AsignacionEntrada
  {
    AsignacionEntrada(Given(a.usuarioId), Given(a.monto), Given(a.justificacion))
  }

  /** A request meeting all three constraints is accepted unchanged, and only such a request. */
  lemma AceptadaSinCambios(a: AsignacionCreditoRequest)
    ensures Validar(Cuerpo(a)) == Valid(a) <==> EsValida(a)
  {
  }

  /** A non-positive `monto` is rejected, whatever the other fields. */
  lemma MontoNoPositivoRechazado(e: AsignacionEntrada)
    requires e.monto.Given? && e.monto.value <= 0
    ensures Validar(e).Invalid?
    ensures NotGreaterThan("monto", 0) in Validar(e).errors
  {
  }

  /** `justificacion` must be present and at least ten characters long; exactly ten is accepted. */
  lemma LongitudJustificacion(usuarioId: string, monto: int, j: string)
    requires monto > 0
    ensures Validar(AsignacionEntrada(Given(usuarioId), Given(monto), Given(j))).Valid? <==> |j| >= 10
    ensures |j| == 10 ==> Validar(AsignacionEntrada(Given(usuarioId), Given(monto), Given(j))).Valid?
    ensures Validar(AsignacionEntrada(Given(usuarioId), Given(monto), Missing)).Invalid?
  {
  }

  /** `usuario_id` has no default: a body without it is rejected. */
  lemma UsuarioIdRequerido(e: AsignacionEntrada)
    requires e.usuarioId.Missing?
    ensures Validar(e).Invalid? && Required("usuario_id") in Validar(e).errors
  {
  }
}

/** The measurement validation rule of the inspection system: a fixed table of
    three closed tolerance ranges, a test of one value against one range, and
    the classification of a set of three measurements into per-field verdicts
    and an overall verdict `OK` or `NG`. */
module Validacion {
  import opened JsNumbers

  /** One entry of the tolerance table: inclusive bounds and a display name. */
  datatype Rango = Rango(min: real, max: real, nombre: string)

  /** The tolerance table, one entry per measured field. */
  datatype Tabla = Tabla(diametroPilot: Rango, longitud: Rango, bead: Rango)

  const RangosValidacion: Tabla := Tabla(
    Rango(11.58, 11.71, "Diámetro Pilot"),
    Rango(11.8, 12.4, "Longitud"),
    Rango(20.51, 20.91, "Bead"))

  /** The three measurements of one inspection, as the caller passed them. */
  datatype Mediciones = Mediciones(diametroPilot: JsValue, longitud: JsValue, bead: JsValue)

  /** The verdict on one field: the value echoed, whether it passed, and the
      table entry it was checked against. */
  datatype Campo = Campo(valor: JsValue, valido: bool, rango: Rango)

  datatype Resultado = OK | NG

  /** The result of validating an inspection. */
  datatype ResultadoValidacion = ResultadoValidacion(
    diametroPilot: Campo,
    longitud: Campo,
    bead: Campo,
    resultadoGeneral: Resultado,
    mensaje: string)

  const MensajeOk: string := "Todas las mediciones están dentro de los rangos permitidos"
  const MensajeNg: string := "Una o más mediciones están fuera de los rangos permitidos"

  /** A table entry is well formed when its range is non-empty and not a point. */
  predicate BienFormado(rango: Rango) {
    rango.min < rango.max
  }

  /** Reference meaning of "the value passes this range": it converts to a
      finite number inside the closed interval. */
  predicate DentroDe(valor: JsValue, rango: Rango) {
    InClosed(ToNumber(valor), rango.min, rango.max)
  }

  /** `valor >= min && valor <= max`, with JavaScript's comparison semantics. */
  function ValidarRango(valor: JsValue, min: Num, max: Num): (ok: bool)
    ensures ok ==> !ToNumber(valor).NaN? && !min.NaN? && !max.NaN?
    ensures min.Fin? && max.Fin? ==> (ok <==> InClosed(ToNumber(valor), min.r, max.r))
  {
    GreaterOrEqual(ToNumber(valor), min) && LessOrEqual(ToNumber(valor), max)
  }

  /** The verdict on one field; the rule builds one per measurement. */
  function ValidarCampo(valor: JsValue, rango: Rango): (c: Campo)
    ensures c.valor == valor && c.rango == rango
    ensures c.valido <==> DentroDe(valor, rango)
  {
    Campo(valor, ValidarRango(valor, Fin(rango.min), Fin(rango.max)), rango)
  }

  /** All three measurements lie in their own ranges. */
  predicate TodasDentro(m: Mediciones) {
    && DentroDe(m.diametroPilot, RangosValidacion.diametroPilot)
    && DentroDe(m.longitud, RangosValidacion.longitud)
    && DentroDe(m.bead, RangosValidacion.bead)
  }

  /** Classifies an inspection. Each field is checked against its own table
      entry and echoed with it; the overall verdict is `OK` exactly when all
      three fields pass, and the message agrees with the verdict. */
  function ValidarMediciones(m: Mediciones): (v: ResultadoValidacion)
    ensures v.diametroPilot.valor == m.diametroPilot
    ensures v.longitud.valor == m.longitud
    ensures v.bead.valor == m.bead
    ensures v.diametroPilot.rango == RangosValidacion.diametroPilot
    ensures v.longitud.rango == RangosValidacion.longitud
    ensures v.bead.rango == RangosValidacion.bead
    ensures v.diametroPilot.valido <==> DentroDe(m.diametroPilot, RangosValidacion.diametroPilot)
    ensures v.longitud.valido <==> DentroDe(m.longitud, RangosValidacion.longitud)
    ensures v.bead.valido <==> DentroDe(m.bead, RangosValidacion.bead)
    ensures v.resultadoGeneral == OK <==> v.diametroPilot.valido && v.longitud.valido && v.bead.valido
    ensures v.resultadoGeneral == OK <==> TodasDentro(m)
    ensures v.mensaje == (if v.resultadoGeneral == OK then MensajeOk else MensajeNg)
  {
    var dp := ValidarCampo(m.diametroPilot, RangosValidacion.diametroPilot);
    var lo := ValidarCampo(m.longitud, RangosValidacion.longitud);
    var be := ValidarCampo(m.bead, RangosValidacion.bead);
    var todasValidas := dp.valido && lo.valido && be.valido;
    ResultadoValidacion(
      dp, lo, be,
      if todasValidas then OK else NG,
      if todasValidas then MensajeOk else MensajeNg)
  }

  /** The three per-field validity flags, in table order. */
  function Flags(v: ResultadoValidacion): (bool, bool, bool) {
    (v.diametroPilot.valido, v.longitud.valido, v.bead.valido)
  }

  // ---------------------------------------------------------------------
  // Properties of the tolerance table
  // ---------------------------------------------------------------------

  /** Every entry of the table has `min < max`. */
  lemma TablaBienFormada()
    ensures BienFormado(RangosValidacion.diametroPilot)
    ensures BienFormado(RangosValidacion.longitud)
    ensures BienFormado(RangosValidacion.bead)
  {
  }

  /** A well-formed range admits a passing value strictly inside it and
      rejects values on either side of it. */
  lemma RangoNoVacio(rango: Rango)
    requires BienFormado(rango)
    ensures exists x: real :: rango.min < x < rango.max && ValidarRango(Number(Fin(x)), Fin(rango.min), Fin(rango.max))
    ensures exists x: real :: x < rango.min && !ValidarRango(Number(Fin(x)), Fin(rango.min), Fin(rango.max))
    ensures exists x: real :: rango.max < x && !ValidarRango(Number(Fin(x)), Fin(rango.min), Fin(rango.max))
  {
    var medio := (rango.min + rango.max) / 2.0;
    assert rango.min < medio < rango.max && ValidarRango(Number(Fin(medio)), Fin(rango.min), Fin(rango.max));
    var debajo := rango.min - 1.0;
    assert debajo < rango.min && !ValidarRango(Number(Fin(debajo)), Fin(rango.min), Fin(rango.max));
    var encima := rango.max + 1.0;
    assert rango.max < encima && !ValidarRango(Number(Fin(encima)), Fin(rango.min), Fin(rango.max));
  }

  // ---------------------------------------------------------------------
  // Properties of ValidarRango
  // ---------------------------------------------------------------------

  /** Both ends of a finite range pass; any finite value strictly outside fails. */
  lemma ExtremosIncluidos(min: real, max: real, x: real)
    requires min <= max
    ensures ValidarRango(Number(Fin(min)), Fin(min), Fin(max))
    ensures ValidarRango(Number(Fin(max)), Fin(min), Fin(max))
    ensures x < min || max < x ==> !ValidarRango(Number(Fin(x)), Fin(min), Fin(max))
  {
  }

  /** NaN, a missing value and both infinities fail every finite range; no
      input is rejected by a precondition, so none can make the test throw. */
  lemma NoFinitosFallan(min: real, max: real)
    ensures !ValidarRango(Number(NaN), Fin(min), Fin(max))
    ensures !ValidarRango(Undefined, Fin(min), Fin(max))
    ensures !ValidarRango(Number(PosInf), Fin(min), Fin(max))
    ensures !ValidarRango(Number(NegInf), Fin(min), Fin(max))
  {
  }

  /** NaN fails whatever the bounds are, even infinite ones, since both of
      its comparisons are false. */
  lemma NaNNuncaPasa(min: Num, max: Num)
    ensures !ValidarRango(Number(NaN), min, max)
    ensures !ValidarRango(Undefined, min, max)
  {
  }

  // ---------------------------------------------------------------------
  // Properties of ValidarMediciones
  // ---------------------------------------------------------------------

  /** Each field's verdict depends only on that field's own value. */
  lemma CamposIndependientes(m: Mediciones, m': Mediciones)
    ensures m.diametroPilot == m'.diametroPilot ==>
              ValidarMediciones(m).diametroPilot == ValidarMediciones(m').diametroPilot
    ensures m.longitud == m'.longitud ==>
              ValidarMediciones(m).longitud == ValidarMediciones(m').longitud
    ensures m.bead == m'.bead ==>
              ValidarMediciones(m).bead == ValidarMediciones(m').bead
  {
  }

  /** Every combination of pass and fail flags occurs for some inspection, so
      the three fields really are judged independently. */
  lemma CombinacionesAlcanzables(a: bool, b: bool, c: bool)
    ensures exists m: Mediciones :: Flags(ValidarMediciones(m)) == (a, b, c)
  {
    var t := RangosValidacion;
    var m := Mediciones(
      Number(Fin(if a then t.diametroPilot.min else 0.0)),
      Number(Fin(if b then t.longitud.min else 0.0)),
      Number(Fin(if c then t.bead.min else 0.0)));
    assert Flags(ValidarMediciones(m)) == (a, b, c);
  }

  /** Both verdicts occur: the classification is not constant. */
  lemma AmbosResultadosPosibles()
    ensures exists m: Mediciones :: ValidarMediciones(m).resultadoGeneral == OK
    ensures exists m: Mediciones :: ValidarMediciones(m).resultadoGeneral == NG
  {
    CombinacionesAlcanzables(true, true, true);
    CombinacionesAlcanzables(false, true, true);
  }

  /** The three worked inspections: all in range, only `bead` out, all out. */
  lemma Escenarios()
    ensures var v := ValidarMediciones(Mediciones(Number(Fin(11.65)), Number(Fin(12.0)), Number(Fin(20.7))));
      v.resultadoGeneral == OK && Flags(v) == (true, true, true) && v.mensaje == MensajeOk
    ensures var v := ValidarMediciones(Mediciones(Number(Fin(11.65)), Number(Fin(12.0)), Number(Fin(21.5))));
      v.resultadoGeneral == NG && Flags(v) == (true, true, false) && v.mensaje == MensajeNg
    ensures var v := ValidarMediciones(Mediciones(Number(Fin(0.0)), Number(Fin(0.0)), Number(Fin(0.0))));
      v.resultadoGeneral == NG && Flags(v) == (false, false, false) && v.mensaje == MensajeNg
  {
  }

  /** Values exactly on the bounds of every entry give `OK`; a value just
      outside one bound gives `NG` with only that field failing. */
  lemma EscenariosEnLosLimites()
    ensures ValidarMediciones(Mediciones(Number(Fin(11.58)), Number(Fin(11.8)), Number(Fin(20.51)))).resultadoGeneral == OK
    ensures ValidarMediciones(Mediciones(Number(Fin(11.71)), Number(Fin(12.4)), Number(Fin(20.91)))).resultadoGeneral == OK
    ensures Flags(ValidarMediciones(Mediciones(Number(Fin(11.579999)), Number(Fin(12.0)), Number(Fin(20.7))))) == (false, true, true)
    ensures Flags(ValidarMediciones(Mediciones(Number(Fin(11.710001)), Number(Fin(12.0)), Number(Fin(20.7))))) == (false, true, true)
  {
  }

  /** A missing field makes the inspection `NG`; no error is raised. */
  lemma CampoAusenteEsNG(m: Mediciones)
    requires m.diametroPilot == Undefined || m.longitud == Undefined || m.bead == Undefined
    ensures ValidarMediciones(m).resultadoGeneral == NG
    ensures ValidarMediciones(m).mensaje == MensajeNg
  {
  }
}

/** The one step of the record-creation handler that touches the rule: the
    submitted record's `resultado` is overwritten with the computed verdict
    before the record is handed to the store. */
module Registro {
  import opened JsNumbers
  import opened Validacion

  datatype Option<T> = None | Some(value: T)

  /** The data submitted for a new inspection record. `resultado` is absent
      until the handler fills it in. */
  datatype Datos = Datos(
    numeroNomina: int,
    productoId: int,
    diametroPilot: JsValue,
    longitud: JsValue,
    bead: JsValue,
    resultado: Option<Resultado>)

  function MedicionesDe(d: Datos): Mediciones {
    Mediciones(d.diametroPilot, d.longitud, d.bead)
  }

  /** Attaches the verdict of the submitted measurements to the record; the
      stored verdict is `OK` exactly when all three measurements are in range,
      and nothing else in the record changes. */
  function AnotarResultado(d: Datos): (r: Datos)
    ensures r.resultado.Some?
    ensures r.resultado == Some(OK) <==> TodasDentro(MedicionesDe(d))
    ensures r == d.(resultado := r.resultado)
  {
    d.(resultado := Some(ValidarMediciones(MedicionesDe(d)).resultadoGeneral))
  }
}

# Tire inspection validation rule

This project models the measurement validation rule of a desktop quality-inspection
application for tire manufacturing. An inspector enters three measurements of a part:
the pilot diameter (`diametro_pilot`), the length (`longitud`) and the bead (`bead`).
Each is checked against a fixed closed tolerance range:

| field | min | max |
|---|---|---|
| `diametro_pilot` | 11.58 | 11.71 |
| `longitud` | 11.8 | 12.4 |
| `bead` | 20.51 | 20.91 |

The inspection is classified `OK` when all three pass and `NG` otherwise. A message
goes with the verdict. The record handler then stores that verdict with the record.

Files:

- `jsnumbers.dfy` (module `JsNumbers`): the JavaScript values a measurement field can
  hold (`undefined`, `null`, or a Number that is finite, NaN or ±Infinity). It also gives
  the conversion `ToNumber`, and IsLessThan and the `>=` and `<=` operators on Numbers,
  following the ECMAScript Language Specification. `InClosed` is the reference meaning of a
  closed interval over exact reals.
- `validacion.dfy` (module `Validacion`): the tolerance table `RangosValidacion`,
  `ValidarRango`, `ValidarMediciones` and the lemmas about them.
  `DentroDe` is the independent reference definition of "passes a range". Every
  contract of the rule is stated against it.
- `registro.dfy` (module `Registro`): the handler step that writes the computed verdict
  into the record before it is stored.

Measurements are only compared, never computed with, so exact `real` literals stand
for the bounds. A missing field is `undefined`, which JavaScript turns into NaN when
comparing. The code raises no missing-field error; a missing field simply fails.

## Model

| member | source | states |
|---|---|---|
| `JsNumbers.IsLessThan` | src/database/validacion.js:28 | the JavaScript comparison is undefined exactly when NaN is involved; on finite numbers it is the real order; +Infinity is never less and -Infinity is never greater; -Infinity is less than every other non-NaN number, and every non-NaN number other than +Infinity is less than +Infinity |
| `JsNumbers.ToNumber` | src/database/validacion.js:28 | `undefined` compares as NaN, `null` as the finite number 0, and a Number as itself |
| `JsNumbers.GreaterOrEqual` | src/database/validacion.js:28 | `valor >= min` is false whenever NaN is involved; on finite numbers it is the real `>=`; +Infinity is at least every non-NaN number, and -Infinity is at least only itself |
| `JsNumbers.LessOrEqual` | src/database/validacion.js:28 | `valor <= max` is false whenever NaN is involved; on finite numbers it is the real `<=`; -Infinity is at most every non-NaN number, and +Infinity is at most only itself |
| `Validacion.ValidarRango` | src/database/validacion.js:27-29 | with finite bounds, the value passes exactly when it is a finite number with `min <= v <= max` (closed at both ends); a value that converts to NaN, or a NaN bound, never passes |
| `Validacion.ValidarCampo` | src/database/validacion.js:41-49 | a field verdict echoes the value and the range unchanged, and its flag is true exactly when the value lies in the range |
| `Validacion.ValidarMediciones` | src/database/validacion.js:39-82 | each field echoes its own input and its own table entry; each flag is the interval test of that field's value against that entry; `resultadoGeneral` is `OK` exactly when all three flags are true, which is exactly when all three values are in range; `mensaje` is the "dentro de los rangos" text for `OK` and the "fuera de los rangos" text for `NG` |
| `Validacion.TablaBienFormada` | src/database/validacion.js:2-18 | every table entry has `min < max` |
| `Validacion.RangoNoVacio` | src/database/validacion.js:27-29 | a range with `min < max` admits a passing value strictly inside it and rejects some value below it and some value above it |
| `Validacion.ExtremosIncluidos` | src/database/validacion.js:28 | the values `min` and `max` themselves pass; any finite value strictly below `min` or above `max` fails |
| `Validacion.NoFinitosFallan` | src/database/validacion.js:28 | NaN, `undefined`, +Infinity and -Infinity fail every finite range |
| `Validacion.NaNNuncaPasa` | src/database/validacion.js:28 | NaN and `undefined` fail even against infinite or NaN bounds |
| `Validacion.CamposIndependientes` | src/database/validacion.js:40-68 | a field's verdict is the same for any two inspections that agree on that field, whatever the other two fields hold |
| `Validacion.CombinacionesAlcanzables` | src/database/validacion.js:40-73 | every combination of the three pass/fail flags occurs for some inspection |
| `Validacion.AmbosResultadosPosibles` | src/database/validacion.js:71-80 | some inspection is classified `OK` and some is classified `NG` |
| `Validacion.Escenarios` | src/database/validacion.js:71-80 | (11.65, 12.0, 20.7) is `OK` with all flags true; (11.65, 12.0, 21.5) is `NG` with only `bead` failing; (0, 0, 0) is `NG` with all three failing; the message matches in each case |
| `Validacion.EscenariosEnLosLimites` | src/database/validacion.js:2-18 | all-lower-bound and all-upper-bound inspections are `OK`; 11.579999 and 11.710001 fail only the pilot diameter |
| `Validacion.CampoAusenteEsNG` | src/database/validacion.js:39-81 | an inspection with a missing field is `NG` with the failure message, and no error is raised |
| `Registro.AnotarResultado` | src/main/main.js:134-143 | the verdict stored with a record is `OK` exactly when all three submitted measurements are in range, and no other part of the record changes |

## Left out

- IEEE-754 rounding: the model does not capture how decimal literals and parsed inputs round to doubles. Bounds and values are exact reals, and the sign of zero is not modelled.
- Strings, booleans, objects and Symbols in a measurement field: the comparison would convert them with ToNumber (strings parsed, booleans as 1 or 0, objects through `valueOf`/`toString`, which may throw; a Symbol throws). The form converts its inputs with `parseFloat` first, so only Numbers (possibly NaN), `undefined` and `null` are modelled.
- Validacion.ValidarRango: its contract describes the result only for finite bounds, plus the NaN cases. The rule only ever passes the table's finite bounds. Infinite bounds follow `IsLessThan`, but no contract spells them out.
- Determinism: Dafny functions are deterministic by construction, so no lemma states it.
- Electron window creation, the IPC handlers and the preload bridge (src/main/main.js, src/main/preload.js): process and message plumbing. Only the `resultado` assignment is modelled.
- The record store (src/database/db.js, src/main/db.js, src/database/seed.js): SQL statements run by the SQLite library. Its ordering, joins and foreign keys live in SQL, not in JavaScript logic.
- The React UI (src/renderer/): rendering, date formatting, the form's display copy of the tolerance table, and its "complete all fields" check.
- Build and environment scripts (verify-system.js, manual-babel-loader.js, babel.config.js).

# Student-billing ledger (`SistemaEscolar`) in Dafny

This project models the ledger at the heart of the school payment system in
`sistema.js`. The ledger keeps an ordered list of student records. Each record
has a monthly fee (`mensualidad`), a scholarship percentage (`beca`), a list of
payments (`pagos`) and an owed balance (`adeudo`). The ledger supports four
operations:

- registering a student, which fixes the balance at ten monthly fees reduced by the scholarship;
- recording a payment, which appends it and subtracts its amount from the balance;
- looking a student up by id, which returns the first match in list order;
- saving, which overwrites the browser's local storage with the whole list after every successful change.

Everything is in `sistema.dfy`, module `Sistema`:

- `Alumno` and `Pago` are datatypes. The ledger `SistemaEscolar` is a class. Its field
  `alumnos: seq<Alumno>` is reassigned by the methods.
- The ghost field `almacen: Option<seq<Alumno>>` stands for the content of the storage key.
  `None` means the key is absent.
- The clock readings the source uses become parameters: the student id
  (`Date.now()`) and the payment date (`toISOString()`). `beca` keeps its default
  value 0.
- Money is `real`. The invariant "balance plus total paid equals the balance fixed at
  registration" is `Cuadra`, and `Consistente` says it holds for every student.
  Data loaded from storage is not checked by the source, so the invariant is not
  assumed at start-up. Both mutators preserve it.
- `Sincronizado` says that reloading from storage gives back the list in memory. The
  constructor establishes it, and every method keeps it.

The source uses the millisecond clock (`Date.now()`, sistema.js:21) as the id, so two
registrations in the same millisecond share an id. The model takes the id as a
parameter and promises no uniqueness.
`BusquedaTrasRegistro` shows what a repeated id does: lookup and payment keep finding
the earlier record, and the new one can no longer be reached by id.

## Model

| member | source | states |
|---|---|---|
| `Sistema.PrimerIndice` | sistema.js:55 | the result is the position of the first student whose id matches, so every earlier student has another id; it is absent exactly when no student has that id |
| `Sistema.PagoEnLista` | sistema.js:37-50 | a payment fails exactly when no student has the id; otherwise the list keeps its length, the first matching student gets the payment appended at the end of its payments and its balance reduced by exactly the amount, and every other student and every other field stay the same |
| `Sistema.TotalPagadoAlFinal` | sistema.js:47 | appending a payment raises the total paid by exactly its amount |
| `Sistema.RegistroCuadra` | sistema.js:19-29 | a new record owes mensualidad * (1 - beca/100) * 10, has paid nothing, and so balances |
| `Sistema.AdeudoSinBeca` | sistema.js:19 | with the default scholarship 0 the estimate is ten monthly fees |
| `Sistema.PagarCuadra` | sistema.js:47-48 | a payment keeps the student's balance plus total paid equal to the balance fixed at registration |
| `Sistema.PagosSucesivos` | sistema.js:47-48 | after a run of payments the payments are the old ones followed by the new ones in order, the balance dropped by exactly their total, and nothing else changed |
| `Sistema.PagoConservaConsistencia` | sistema.js:38-48 | if every student balances before a successful payment, every student balances after it |
| `Sistema.RegistroConservaConsistencia` | sistema.js:28-31 | if every student balances, appending a newly registered student keeps that true |
| `Sistema.MismaBusqueda` | sistema.js:55 | lookup depends only on the ids in order |
| `Sistema.PagoConservaBusqueda` | sistema.js:38-48 | after a payment every id is found at the same position as before |
| `Sistema.BusquedaTrasRegistro` | sistema.js:21-31 | after registration an id already present is still found at its earlier position, the new id is found at the end only if it was absent, and other ids stay absent |
| `Sistema.SistemaEscolar.constructor` | sistema.js:3-11 | the list is the stored list, or empty when the key is absent, and it agrees with storage |
| `Sistema.SistemaEscolar.GuardarAlumnos` | sistema.js:14-16 | storage is overwritten with the whole current list and nothing else changes |
| `Sistema.SistemaEscolar.IndiceDe` | sistema.js:38 | the linear scan returns the first matching position, or none |
| `Sistema.SistemaEscolar.RegistrarAlumno` | sistema.js:19-34 | returns the new record with empty payments and the derived balance, appends exactly it at the end leaving earlier records unchanged, saves, and keeps every student balanced |
| `Sistema.SistemaEscolar.RegistrarPago` | sistema.js:37-51 | returns true exactly when some student has the id; if not, nothing changes and nothing is saved; if so, the list is the one `PagoEnLista` gives, it is saved, and every student stays balanced |
| `Sistema.SistemaEscolar.ObtenerAlumno` | sistema.js:54-56 | returns the first student in list order with the id, and nothing exactly when no student has it |

## Left out

- localStorage and JSON encoding (sistema.js:9-10, 15) are foreign I/O. Storage is the ghost field `almacen`, which holds the decoded list, so `load(save(S)) == S` holds by construction and JSON itself is not modelled. The source treats a stored empty string like an absent key; that case is folded into `None`.
- Storage failures are not modelled. In the model `GuardarAlumnos` cannot fail, and `Option<seq<Alumno>>` cannot represent corrupted stored text. In the source, if `localStorage.setItem` throws (sistema.js:15), the push at sistema.js:31 or the update at sistema.js:47-48 has already happened. The list in memory is then ahead of storage, and the method throws instead of returning. If `JSON.parse` throws on corrupted text (sistema.js:10), the constructor never returns. So `Sincronizado` holds in the model only, not in the source under a storage failure.
- `Date.now()` and `new Date().toISOString()` are clock reads. They are parameters `id` and `fecha`, and id uniqueness is not claimed because the source does not guarantee it.
- `parseFloat`, `NaN` and JavaScript's string-to-number coercion are not modelled. Inputs are already-parsed exact reals. In the source the stored fee goes through `parseFloat` (sistema.js:25), but the balance uses the raw value through coercion (sistema.js:28). For text such as "12abc" the two disagree; the model cannot express this.
- Floating-point rounding is not modelled. With exact reals the balance invariant holds exactly. With IEEE doubles, as in the source, it holds only up to rounding.
- Object aliasing is not modelled. The source returns the stored student object itself from `registrarAlumno` and `obtenerAlumno`, so a caller could change it without a save. The model returns values.
- `generarListaAlumnos` and `generarFormularioPago` (sistema.js:59-114) are HTML string building, so they are left out.
- The DOM handlers `mostrarSeccion`, `mostrarPago`, `procesarPago` and the `DOMContentLoaded` wiring (sistema.js:121-182) are browser I/O, so they are left out.
- The global instance at sistema.js:118 is module wiring, so it is left out.

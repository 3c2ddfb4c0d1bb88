# PyAgenda task store, modelled in Dafny

PyAgenda is a console to-do list. This project models its core, which is three parts:

- **`Tarea`**: the task record. It holds a description, a completion flag (`estado`), a creation time, a completion time and a due date.
- **`GestorTareas`**: the store. It keeps an ordered list of tasks and appends, completes or deletes a task by position. After every successful change it rewrites the whole list to its file.
- **The codec** behind `guardar_tareas` / `cargar_tareas`. It turns the list into a list of five-key field maps and back.

Files:

- `tareas.dfy` (module `Tareas`): the record, its constructor, the coherence invariant "`estado` ⇔ a completion time is present", and the completion update.
- `codec.dfy` (module `Codec`): the stored values (`Texto`, `Logico`, `Nulo`, and `Otro` for numbers, arrays and objects), one map per task, the list codec, and the round trips in both directions.
- `gestor.dfy` (module `Gestor`):
  - the Python-index resolution of positions;
  - the functions that specify the list after add, complete and delete;
  - class `GestorTareas`, with a field `tareas` and a field `disco` (what the file holds, `None` while it does not exist);
  - a verified session on a fresh store.

Positions are Python indices. `tareas[posicion - 1]` accepts every position from `1 - N` to `N` in a list of length N. A strict 1..N reading of "position" would reject 0 and negative positions; the code accepts them. Position 0 is the last task, and negative positions count back from the end. The model follows the code: `Gestor.Resolver`.

The clock (`datetime.now().isoformat()`) and the due date typed at `input()` are parameters (`ahora`, `fechaRealizar`). They are opaque strings.

The coherence invariant is not a class invariant. A file on disk may hold a completed task without a completion time, and loading keeps it. What the model proves instead: adding, completing and deleting keep the invariant whenever it held before.

## Model

| member | source | states |
|---|---|---|
| `Tareas.NuevaTareaPendiente` | PyAgenda.py:20-25 | a new task is always pending; it is coherent exactly when it is built without a completion time |
| `Tareas.Completada` | PyAgenda.py:86-88 | the completed task has `estado` true and the given completion time, is coherent, and keeps its description, creation time and due date |
| `Codec.CodificarCampos` | PyAgenda.py:63-69 | the map saved for a task has exactly the five keys |
| `Codec.DecodificarCampos` | PyAgenda.py:55-56 | decoding succeeds exactly when the map is well formed, and then all five keys are present |
| `Codec.ClaveAjenaIgnorada` | PyAgenda.py:55-56 | a key other than the five, whatever value it holds, does not change what a map decodes to |
| `Codec.CamposIdaYVuelta` | PyAgenda.py:55-69 | decoding the map saved for a task gives back the same task |
| `Codec.CamposVueltaEIda` | PyAgenda.py:55-69 | a decodable map agrees with the re-encoding of its task on the five keys, and equals it when it has no other keys |
| `Codec.CodificarTodo` | PyAgenda.py:61-70 | the saved list has one map per task, in order, each the encoding of the task at that index |
| `Codec.DecodificarTodo` | PyAgenda.py:54-57 | loading succeeds exactly when every map is well formed, and then yields one task per map, in order |
| `Codec.DecodificarUnoMas` | PyAgenda.py:54-57 | decoding one more well-formed map appends exactly its task to the decoded prefix |
| `Codec.IdaYVuelta` | PyAgenda.py:54-70 | loading the saved list gives back the saved tasks field for field and in the same order |
| `Codec.VueltaEIda` | PyAgenda.py:54-70 | saving what was loaded from a file of five-key maps reproduces that file |
| `Gestor.Resolver` | PyAgenda.py:86 | a position is accepted exactly when `1-N <= posicion <= N`; it addresses index `posicion-1` when positive and `N+posicion-1` when not |
| `Gestor.PosicionesDeIndice` | PyAgenda.py:105 | each index `i` is reached by exactly two positions, `i+1` and `i+1-N` |
| `Gestor.Agregada` | PyAgenda.py:75-80 | the list grows by one; earlier tasks are unchanged; the new last task has the given description, due date and creation time, is pending and has no completion time; coherence is preserved |
| `Gestor.Marcada` | PyAgenda.py:83-88 | the length is unchanged; only the addressed task changes, to completed at the given time, overwriting any earlier completion time; no task becomes pending; coherence is preserved |
| `Gestor.Eliminada` | PyAgenda.py:102-105 | the length drops by one; tasks before the index stay; each later task moves one position down; exactly the removed task leaves the multiset; coherence is preserved |
| `Gestor.GestorTareas.constructor` | PyAgenda.py:41-48 | a missing file gives an empty store; otherwise the store holds the decoded file; the file is untouched |
| `Gestor.GestorTareas.CargarTareas` | PyAgenda.py:50-57 | a missing file appends nothing; a well-formed one appends its tasks in order; a malformed one stops at the first bad map, with the tasks before it appended |
| `Gestor.GestorTareas.GuardarTareas` | PyAgenda.py:59-73 | the file afterwards holds the encoding of the current list, and decoding it gives back that list |
| `Gestor.GestorTareas.AgregarTarea` | PyAgenda.py:75-81 | the list becomes `Agregada` of the old list, and the file holds the new list |
| `Gestor.GestorTareas.MarcarCompletada` | PyAgenda.py:83-91 | it succeeds exactly at an accepted position; then the list becomes `Marcada` at the resolved index and the file holds the new list; otherwise list and file are unchanged |
| `Gestor.GestorTareas.EliminarTarea` | PyAgenda.py:102-108 | it succeeds exactly at an accepted position; then the list becomes `Eliminada` at the resolved index and the file holds the new list; otherwise list and file are unchanged |
| `Gestor.GestorTareas.MostrarTareas` | PyAgenda.py:93-100 | the listing pairs each task with its 1-based number, in order, and every number shown is a position that addresses that same task |

## Left out

- The menu loop, the banner, screen clearing and the parsing of typed positions (`main`, `mostrar_portada`, PyAgenda.py:111-166). These are user interface.
- `Tarea.__str__`, the terminal colours and the printed error messages. These are presentation. The failed-position message is modelled as the result `PosicionInexistente`, and the listing as plain (number, task) pairs.
- Opening, reading and writing the file, and JSON text. The file is modelled as the sequence of field maps it holds (`disco`), and a missing file as `None`. Writes are modelled as atomic. Crash safety and concurrent edits of the file are out of scope.
- JSON values of an unexpected type in one of the five fields, for example `estado` holding a string, `creado_en` holding a number or `descripcion` holding `null`. Python would store them unchecked. The model treats such a map as malformed, because the record's fields are typed. Numbers, arrays and objects are all represented by the one value `Otro`; under a key other than the five they are ignored, as the source ignores them.
- `Gestor.GestorTareas.constructor`: it requires a well-formed file when one exists. In the source, a malformed file raises an error that nobody catches, and the program stops. `CargarTareas` itself also models the malformed case.
- Tasks are values, not shared objects. `marcar_completada` mutates the task object in place. The model replaces the element at that index instead. The store is the only owner of its tasks, so the two cannot be told apart.
- Timestamps carry no order. That a completion time is never earlier than the creation time depends on the real clock and is not modelled.

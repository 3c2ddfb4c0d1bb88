/** The task record of the agenda (class Tarea in PyAgenda.py) and the
    predicates that speak about its completion state. */
module Tareas {

  datatype Option<+T> = None | Some(value: T)

  /** One task. Timestamps and the due date are opaque text; `None` stands for
      Python's `None`. */
  datatype Tarea = Tarea(
    descripcion: string,
    estado: bool,
    creadoEn: Option<string>,
    realizadaEn: Option<string>,
    fechaRealizar: Option<string>)

  /** The constructor `Tarea(descripcion, fecha_realizar, creado_en, realizada_en)`:
      whatever the arguments, a new task starts pending. */
  function NuevaTarea(descripcion: string, fechaRealizar: Option<string>,
                      creadoEn: Option<string>, realizadaEn: Option<string>): Tarea
  {
    Tarea(descripcion, false, creadoEn, realizadaEn, fechaRealizar)
  }

  /** The coherence invariant: a task is completed exactly when it carries a
      completion time. */
  predicate Coherente(t: Tarea)
  {
    t.estado <==> t.realizadaEn.Some?
  }

  predicate TodasCoherentes(ts: seq<Tarea>)
  {
    forall k :: 0 <= k < |ts| ==> Coherente(ts[k])
  }

  /** A task built with no completion time is pending and coherent; a task
      built with one (as the decoder does before it overwrites `estado`) is
      not coherent until `estado` is set. */
  lemma NuevaTareaPendiente(descripcion: string, fechaRealizar: Option<string>,
                            creadoEn: Option<string>, realizadaEn: Option<string>)
    ensures !NuevaTarea(descripcion, fechaRealizar, creadoEn, realizadaEn).estado
    ensures Coherente(NuevaTarea(descripcion, fechaRealizar, creadoEn, realizadaEn))
            <==> realizadaEn.None?
  {
  }

  /** What `marcar_completada` does to the addressed task: it becomes completed
      at `ahora`, also when it was already completed, and keeps its text and
      other timestamps. */
  function Completada(t: Tarea, ahora: string): (r: Tarea)
    ensures r.estado && r.realizadaEn == Some(ahora)
    ensures Coherente(r)
    ensures r.descripcion == t.descripcion && r.creadoEn == t.creadoEn
            && r.fechaRealizar == t.fechaRealizar
  {
    t.(estado := true, realizadaEn := Some(ahora))
  }
}

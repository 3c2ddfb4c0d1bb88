/** The task store (class GestorTareas in PyAgenda.py): an ordered list of
    tasks, addressed by position, rewritten to its file after every change. */
module Gestor {
  import opened Tareas
  import opened Codec

  /** Outcome of `marcar_completada` / `eliminar_tarea`: the source prints an
      error message on `IndexError` instead of changing anything. */
  datatype Resultado = Hecho | PosicionInexistente

  /** Outcome of `cargar_tareas`: a missing file raises `FileNotFoundError`,
      which the constructor swallows; a malformed one raises an error that
      nobody catches. */
  datatype Carga = Cargado | ArchivoNoEncontrado | ArchivoMalformado

  /** The element that `tareas[posicion - 1]` addresses in a Python list of
      length `n`: indices `0 .. n-1` for positions `1 .. n`, and negative
      indices counting back from the end for positions `1-n .. 0`. `None` is
      the `IndexError` case. */
  function Resolver(posicion: int, n: nat): (r: Option<nat>)
    ensures r.Some? <==> 1 - n <= posicion <= n
    ensures r.Some? ==> r.value < n
    ensures r.Some? && posicion >= 1 ==> r.value == posicion - 1
    ensures r.Some? && posicion <= 0 ==> r.value == n + posicion - 1
  {
    var k := posicion - 1;
    if 0 <= k < n then Some(k)
    else if -(n as int) <= k < 0 then Some(n + k)
    else None
  }

  /** Every task of a list of length `n` is reached by exactly two positions:
      its 1-based position and that position minus `n`. */
  lemma PosicionesDeIndice(posicion: int, n: nat, i: nat)
    requires i < n
    ensures Resolver(posicion, n) == Some(i) <==> posicion == i + 1 || posicion == i + 1 - n
  {
  }

  /** The list after `agregar_tarea`. */
  function Agregada(ts: seq<Tarea>, descripcion: string, fechaRealizar: string,
                    ahora: string): (r: seq<Tarea>)
    ensures |r| == |ts| + 1 && r[..|ts|] == ts
    ensures r[|ts|].descripcion == descripcion && r[|ts|].fechaRealizar == Some(fechaRealizar)
    ensures r[|ts|].creadoEn == Some(ahora)
    ensures !r[|ts|].estado && r[|ts|].realizadaEn.None?
    ensures TodasCoherentes(ts) ==> TodasCoherentes(r)
  {
    ts + [NuevaTarea(descripcion, Some(fechaRealizar), Some(ahora), None)]
  }

  /** The list after `marcar_completada` of index `i`. */
  function Marcada(ts: seq<Tarea>, i: nat, ahora: string): (r: seq<Tarea>)
    requires i < |ts|
    ensures |r| == |ts|
    ensures r[i].estado && r[i].realizadaEn == Some(ahora)
    ensures r[i].descripcion == ts[i].descripcion && r[i].creadoEn == ts[i].creadoEn
            && r[i].fechaRealizar == ts[i].fechaRealizar
    ensures forall k :: 0 <= k < |ts| && k != i ==> r[k] == ts[k]
    ensures forall k :: 0 <= k < |ts| && ts[k].estado ==> r[k].estado
    ensures TodasCoherentes(ts) ==> TodasCoherentes(r)
  {
    ts[i := Completada(ts[i], ahora)]
  }

  /** The list after `eliminar_tarea` of index `i`: every later task moves one
      position down. */
  function Eliminada(ts: seq<Tarea>, i: nat): (r: seq<Tarea>)
    requires i < |ts|
    ensures |r| == |ts| - 1
    ensures forall k :: 0 <= k < i ==> r[k] == ts[k]
    ensures forall k :: i <= k < |r| ==> r[k] == ts[k + 1]
    ensures multiset(r) + multiset{ts[i]} == multiset(ts)
    ensures TodasCoherentes(ts) ==> TodasCoherentes(r)
  {
    assert ts == ts[..i] + [ts[i]] + ts[i + 1..];
    ts[..i] + ts[i + 1..]
  }

  class GestorTareas {
    /** The path of the store's file. */
    const archivo: string
    /** The tasks in insertion order. */
    var tareas: seq<Tarea>
    /** What the file at `archivo` holds: `None` while it does not exist. */
    var disco: Option<seq<Campos>>

    /** `GestorTareas(archivo)`, given what the file holds when the program
        starts: the list starts empty and is then filled from the file unless
        it is missing. */
    constructor (archivo: string, contenido: Option<seq<Campos>>)
      requires contenido.Some? ==> DecodificarTodo(contenido.value).Some?
      ensures this.archivo == archivo && disco == contenido
      ensures tareas == if contenido.Some? then DecodificarTodo(contenido.value).value else []
    {
      this.archivo := archivo;
      tareas := [];
      disco := contenido;
      new;
      var carga := CargarTareas();
    }

    /** `cargar_tareas`: append the decoded tasks of the file, in order. On a
        malformed entry it stops there, having appended the tasks before it. */
    method CargarTareas() returns (r: Carga)
      modifies this`tareas
      ensures disco.None? ==> r == ArchivoNoEncontrado && tareas == old(tareas)
      ensures disco.Some? && DecodificarTodo(disco.value).Some? ==>
                r == Cargado && tareas == old(tareas) + DecodificarTodo(disco.value).value
      ensures disco.Some? && DecodificarTodo(disco.value).None? ==>
                r == ArchivoMalformado &&
                exists j :: 0 <= j < |disco.value| && DecodificarCampos(disco.value[j]).None?
                  && DecodificarTodo(disco.value[..j]).Some?
                  && tareas == old(tareas) + DecodificarTodo(disco.value[..j]).value
    {
      if disco.None? {
        return ArchivoNoEncontrado;
      }
      var datos := disco.value;
      var i := 0;
      while i < |datos|
        invariant 0 <= i <= |datos|
        invariant DecodificarTodo(datos[..i]).Some?
        invariant tareas == old(tareas) + DecodificarTodo(datos[..i]).value
      {
        var tarea := DecodificarCampos(datos[i]);
        if tarea.None? {
          return ArchivoMalformado;
        }
        DecodificarUnoMas(datos, i);
        tareas := tareas + [tarea.value];
        i := i + 1;
      }
      assert datos[..i] == datos;
      return Cargado;
    }

    /** `guardar_tareas`: build one map per task and overwrite the file. */
    method GuardarTareas()
      modifies this`disco
      ensures disco == Some(CodificarTodo(tareas))
      ensures DecodificarTodo(disco.value) == Some(tareas)
    {
      var datos: seq<Campos> := [];
      for i := 0 to |tareas|
        invariant |datos| == i
        invariant forall k :: 0 <= k < i ==> datos[k] == CodificarCampos(tareas[k])
      {
        datos := datos + [CodificarCampos(tareas[i])];
      }
      assert datos == CodificarTodo(tareas);
      disco := Some(datos);
      IdaYVuelta(tareas);
    }

    /** `agregar_tarea`, with the clock reading `ahora` and the due date typed
        by the user as parameters. */
    method AgregarTarea(descripcion: string, fechaRealizar: string, ahora: string)
      modifies this
      ensures tareas == Agregada(old(tareas), descripcion, fechaRealizar, ahora)
      ensures disco == Some(CodificarTodo(tareas))
    {
      var nueva := NuevaTarea(descripcion, Some(fechaRealizar), Some(ahora), None);
      tareas := tareas + [nueva];
      GuardarTareas();
    }

    /** `marcar_completada`, with the clock reading `ahora` as a parameter. */
    method MarcarCompletada(posicion: int, ahora: string) returns (r: Resultado)
      modifies this
      ensures (r == Hecho) <==> Resolver(posicion, |old(tareas)|).Some?
      ensures r == PosicionInexistente ==> tareas == old(tareas) && disco == old(disco)
      ensures r == Hecho ==>
                tareas == Marcada(old(tareas), Resolver(posicion, |old(tareas)|).value, ahora)
                && disco == Some(CodificarTodo(tareas))
    {
      var i := Resolver(posicion, |tareas|);
      if i.None? {
        return PosicionInexistente;
      }
      var tarea := tareas[i.value];
      tareas := tareas[i.value := Completada(tarea, ahora)];
      GuardarTareas();
      return Hecho;
    }

    /** `eliminar_tarea`. */
    method EliminarTarea(posicion: int) returns (r: Resultado)
      modifies this
      ensures (r == Hecho) <==> Resolver(posicion, |old(tareas)|).Some?
      ensures r == PosicionInexistente ==> tareas == old(tareas) && disco == old(disco)
      ensures r == Hecho ==>
                tareas == Eliminada(old(tareas), Resolver(posicion, |old(tareas)|).value)
                && disco == Some(CodificarTodo(tareas))
    {
      var i := Resolver(posicion, |tareas|);
      if i.None? {
        return PosicionInexistente;
      }
      tareas := tareas[..i.value] + tareas[i.value + 1..];
      GuardarTareas();
      return Hecho;
    }

    /** The numbering of `mostrar_tareas`: each task with its 1-based number,
        in order; every number shown is a position that addresses that very
        task. */
    method MostrarTareas() returns (lineas: seq<(int, Tarea)>)
      ensures |lineas| == |tareas|
      ensures forall k :: 0 <= k < |tareas| ==> lineas[k] == (k + 1, tareas[k])
      ensures forall k :: 0 <= k < |lineas| ==> Resolver(lineas[k].0, |tareas|) == Some(k)
    {
      lineas := [];
      var i := 0;
      while i < |tareas|
        invariant 0 <= i <= |tareas|
        invariant |lineas| == i
        invariant forall k :: 0 <= k < i ==> lineas[k] == (k + 1, tareas[k])
      {
        lineas := lineas + [(i + 1, tareas[i])];
        i := i + 1;
      }
    }
  }

  /** A session on a store whose file does not exist yet: add, complete,
      reload, delete, reload. */
  method Sesion(archivo: string)
  {
    var g := new GestorTareas(archivo, None);
    assert g.tareas == [];

    var r := g.EliminarTarea(1);
    assert r == PosicionInexistente && g.disco == None;

    g.AgregarTarea("Comprar leche", "2024-01-01T10:00", "2023-12-31T09:00");
    assert |g.tareas| == 1 && !g.tareas[0].estado;
    assert g.tareas[0].descripcion == "Comprar leche";
    assert g.tareas[0].fechaRealizar == Some("2024-01-01T10:00");

    r := g.MarcarCompletada(2, "2023-12-31T09:30");
    assert r == PosicionInexistente;
    r := g.MarcarCompletada(1, "2023-12-31T09:30");
    assert r == Hecho;
    assert g.tareas[0].estado && g.tareas[0].realizadaEn == Some("2023-12-31T09:30");

    IdaYVuelta(g.tareas);
    var recargado := new GestorTareas(archivo, g.disco);
    assert recargado.tareas == g.tareas;

    r := g.EliminarTarea(0);
    assert r == Hecho && g.tareas == [];
    IdaYVuelta(g.tareas);
    recargado := new GestorTareas(archivo, g.disco);
    assert recargado.tareas == [];
  }
}

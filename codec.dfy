/** The record <-> field-map codec of `guardar_tareas` / `cargar_tareas`.
    A stored task is a map from the five field names to JSON values; the
    store is the ordered list of such maps. */
module Codec {
  import opened Tareas

  /** The JSON values a stored field can hold; `Otro` is any number, array
      or object, whose contents the store never looks at. */
  datatype Valor = Texto(texto: string) | Logico(logico: bool) | Nulo | Otro

  type Campos = map<string, Valor>

  const Claves: set<string> :=
    {"descripcion", "estado", "creado_en", "realizada_en", "fecha_realizar"}

  function ValorOpcional(o: Option<string>): Valor
  {
    match o
    case None => Nulo
    case Some(s) => Texto(s)
  }

  /** A text-or-null field; `None` when the value is of another JSON type. */
  function LeerOpcional(v: Valor): (r: Option<Option<string>>)
    ensures r.Some? ==> ValorOpcional(r.value) == v
  {
    match v
    case Nulo => Some(None)
    case Texto(s) => Some(Some(s))
    case Logico(_) => None
    case Otro => None
  }

  /** The dictionary built for one task in `guardar_tareas`. */
  function CodificarCampos(t: Tarea): (m: Campos)
    ensures m.Keys == Claves
  {
    map["descripcion" := Texto(t.descripcion),
        "estado" := Logico(t.estado),
        "creado_en" := ValorOpcional(t.creadoEn),
        "realizada_en" := ValorOpcional(t.realizadaEn),
        "fecha_realizar" := ValorOpcional(t.fechaRealizar)]
  }

  predicate CamposBienFormados(m: Campos)
  {
    && "descripcion" in m && m["descripcion"].Texto?
    && "estado" in m && m["estado"].Logico?
    && "creado_en" in m && LeerOpcional(m["creado_en"]).Some?
    && "realizada_en" in m && LeerOpcional(m["realizada_en"]).Some?
    && "fecha_realizar" in m && LeerOpcional(m["fecha_realizar"]).Some?
  }

  /** One iteration of the `cargar_tareas` loop: build the task from four of
      the fields, then overwrite `estado` with the stored one. `None` when a
      key is missing or holds a value of the wrong type. Keys other than the
      five are ignored. */
  function DecodificarCampos(m: Campos): (r: Option<Tarea>)
    ensures r.Some? <==> CamposBienFormados(m)
    ensures r.Some? ==> Claves <= m.Keys
  {
    if CamposBienFormados(m) then
      var t := NuevaTarea(m["descripcion"].texto,
                          LeerOpcional(m["fecha_realizar"]).value,
                          LeerOpcional(m["creado_en"]).value,
                          LeerOpcional(m["realizada_en"]).value);
      Some(t.(estado := m["estado"].logico))
    else
      None
  }

  /** A key other than the five, whatever it holds, does not change what a
      map decodes to. */
  lemma ClaveAjenaIgnorada(m: Campos, clave: string, v: Valor)
    requires clave !in Claves
    ensures DecodificarCampos(m[clave := v]) == DecodificarCampos(m)
  {
  }

  /** Decoding the map saved for a task gives back that task. */
  lemma CamposIdaYVuelta(t: Tarea)
    ensures DecodificarCampos(CodificarCampos(t)) == Some(t)
  {
  }

  /** Conversely, a decodable map agrees with the re-encoding of its task on
      the five keys, and equals it when it has no other keys. */
  lemma CamposVueltaEIda(m: Campos, t: Tarea)
    requires DecodificarCampos(m) == Some(t)
    ensures forall k :: k in Claves ==> CodificarCampos(t)[k] == m[k]
    ensures m.Keys == Claves ==> CodificarCampos(t) == m
  {
    var e := CodificarCampos(t);
    assert LeerOpcional(m["creado_en"]).value == t.creadoEn;
    assert LeerOpcional(m["realizada_en"]).value == t.realizadaEn;
    assert LeerOpcional(m["fecha_realizar"]).value == t.fechaRealizar;
    forall k | k in Claves
      ensures e[k] == m[k]
    {
    }
    if m.Keys == Claves {
      assert e.Keys == m.Keys;
    }
  }

  /** The list `datos` that `guardar_tareas` writes: one map per task, in the
      same order. */
  function CodificarTodo(ts: seq<Tarea>): (ds: seq<Campos>)
    ensures |ds| == |ts|
    ensures forall k :: 0 <= k < |ts| ==> ds[k] == CodificarCampos(ts[k])
  {
    if ts == [] then [] else [CodificarCampos(ts[0])] + CodificarTodo(ts[1..])
  }

  /** The list `cargar_tareas` builds from the stored maps, in the same order;
      `None` exactly when some stored map is malformed. */
  function DecodificarTodo(ds: seq<Campos>): (r: Option<seq<Tarea>>)
    ensures r.Some? <==> forall k :: 0 <= k < |ds| ==> DecodificarCampos(ds[k]).Some?
    ensures r.Some? ==> |r.value| == |ds|
    ensures r.Some? ==> forall k :: 0 <= k < |ds| ==> DecodificarCampos(ds[k]) == Some(r.value[k])
  {
    if ds == [] then Some([])
    else
      match DecodificarCampos(ds[0])
      case None => None
      case Some(t) =>
        match DecodificarTodo(ds[1..])
        case None => None
        case Some(resto) => Some([t] + resto)
  }

  /** Decoding one more well-formed map extends the decoded list by its task:
      the step of the `cargar_tareas` loop. */
  lemma DecodificarUnoMas(ds: seq<Campos>, i: nat)
    requires i < |ds|
    requires DecodificarTodo(ds[..i]).Some?
    requires DecodificarCampos(ds[i]).Some?
    ensures DecodificarTodo(ds[..i + 1])
            == Some(DecodificarTodo(ds[..i]).value + [DecodificarCampos(ds[i]).value])
  {
    var a := ds[..i];
    var b := ds[..i + 1];
    forall k | 0 <= k < |b|
      ensures DecodificarCampos(b[k]).Some?
    {
      if k < i {
        assert b[k] == a[k];
      }
    }
    var esperado := DecodificarTodo(a).value + [DecodificarCampos(ds[i]).value];
    var r := DecodificarTodo(b).value;
    forall k | 0 <= k < |b|
      ensures r[k] == esperado[k]
    {
      if k < i {
        assert b[k] == a[k];
      }
    }
    assert r == esperado;
  }

  /** Round trip of the codec: loading what was saved gives back the saved
      list, field for field and in the same order. */
  lemma {:induction false} IdaYVuelta(ts: seq<Tarea>)
    ensures DecodificarTodo(CodificarTodo(ts)) == Some(ts)
  {
    if ts != [] {
      IdaYVuelta(ts[1..]);
      CamposIdaYVuelta(ts[0]);
      assert CodificarTodo(ts) == [CodificarCampos(ts[0])] + CodificarTodo(ts[1..]);
      assert CodificarTodo(ts)[1..] == CodificarTodo(ts[1..]);
      assert ts == [ts[0]] + ts[1..];
    }
  }

  /** Conversely, saving what was loaded from a file whose maps hold exactly
      the five keys reproduces that file. */
  lemma VueltaEIda(ds: seq<Campos>)
    requires DecodificarTodo(ds).Some?
    requires forall k :: 0 <= k < |ds| ==> ds[k].Keys == Claves
    ensures CodificarTodo(DecodificarTodo(ds).value) == ds
  {
    var ts := DecodificarTodo(ds).value;
    var e := CodificarTodo(ts);
    forall k | 0 <= k < |ds|
      ensures e[k] == ds[k]
    {
      CamposVueltaEIda(ds[k], ts[k]);
    }
  }
}

/** Embedding payloads (embedding_codec.py): strict serialization, parsing and compatibility. */
module EmbeddingCodec {
  import opened Basics
  import opened Json
  import opened Vectors

  const EMBEDDING_PAYLOAD_VERSION := 1
  const BACKEND_HASH_V1 := "hash-v1"
  const BACKEND_ST_MINILM := "sentence-transformers/all-MiniLM-L6-v2"
  const HASH_V1_DIMENSIONS := 128
  const ST_MINILM_DIMENSIONS := 384

  datatype Parsed = Parsed(
    vector: Vector,
    version: Option<int>,
    backend: Option<string>,
    model: Option<string>,
    dimensions: nat,
    legacy: bool)

  /** Dimensions of the stable backends, whose model names are their own identifiers. */
  function StableDimensions(backend: string): Option<nat> {
    if backend == BACKEND_HASH_V1 then Some(HASH_V1_DIMENSIONS)
    else if backend == BACKEND_ST_MINILM then Some(ST_MINILM_DIMENSIONS)
    else None
  }

  /** Configuration names and stable names alike. */
  function ConfigBackend(name: string): Option<string> {
    if name == "fallback" || name == BACKEND_HASH_V1 then Some(BACKEND_HASH_V1)
    else if name == "sentence-transformers" || name == BACKEND_ST_MINILM then Some(BACKEND_ST_MINILM)
    else None
  }

  /** stable_backend_id: the name may stand in whitespace. */
  function StableBackend(name: string): Option<string> {
    ConfigBackend(Strip(name))
  }

  function CanonicalModel(stable: string, model: Option<string>): Option<string> {
    if model == None || model == Some("") || model == Some(stable) || ConfigBackend(model.value) == Some(stable)
    then Some(stable) else None
  }

  /** Numbers only: no booleans, no infinities. */
  function CoerceFinite(items: seq<Json>): (r: Option<Vector>)
    ensures r.Some? ==> |r.value| == |items|
  {
    if items == [] then Some([]) else
      match CoerceFinite(items[..|items| - 1])
      case None => None
      case Some(front) =>
        match items[|items| - 1]
        case Int(n) => Some(front + [n as real])
        case Real(x) => Some(front + [x])
        case _ => None
  }

  method CoerceFiniteFloats(items: seq<Json>) returns (r: Option<Vector>)
    ensures r == CoerceFinite(items)
  {
    var out: Vector := [];
    var i := 0;
    while i < |items|
      invariant 0 <= i <= |items| && CoerceFinite(items[..i]) == Some(out)
    {
      assert items[..i + 1][..i] == items[..i];
      match items[i] {
        case Int(n) => out := out + [n as real];
        case Real(x) => out := out + [x];
        case _ =>
          CoerceFails(items, i + 1);
          return None;
      }
      i := i + 1;
    }
    assert items[..i] == items;
    return Some(out);
  }

  lemma {:induction false} CoerceFails(items: seq<Json>, n: nat)
    requires n <= |items| && CoerceFinite(items[..n]).None?
    ensures CoerceFinite(items).None?
    decreases |items| - n
  {
    if n < |items| {
      assert items[..n + 1][..n] == items[..n];
      CoerceFails(items, n + 1);
    } else {
      assert items[..n] == items;
    }
  }

  /** A JSON number that is finite, as a real. */
  predicate Denotes(j: Json, x: real) {
    (j.Int? && x == j.n as real) || (j.Real? && x == j.r)
  }

  predicate AllNumbers(items: seq<Json>) {
    forall i :: 0 <= i < |items| ==> items[i].Int? || items[i].Real?
  }

  /** Coercion takes exactly lists of finite numbers, no booleans among them, and keeps every value. */
  lemma {:induction false} CoerceMeaning(items: seq<Json>)
    ensures CoerceFinite(items).Some? <==> AllNumbers(items)
    ensures AllNumbers(items) ==> forall i :: 0 <= i < |items| ==> Denotes(items[i], CoerceFinite(items).value[i])
  {
    if items != [] {
      var front, last := items[..|items| - 1], items[|items| - 1];
      assert items == front + [last];
      CoerceMeaning(front);
      if AllNumbers(items) {
        assert AllNumbers(front) by {
          assert forall i :: 0 <= i < |front| ==> front[i] == items[i];
        }
        var v := CoerceFinite(items).value;
        assert forall i :: 0 <= i < |front| ==> v[i] == CoerceFinite(front).value[i] && front[i] == items[i];
      } else {
        assert last.Int? || last.Real? ==> !AllNumbers(front);
      }
    }
  }

  function VectorJson(v: Vector): Json {
    Arr(seq(|v|, i requires 0 <= i < |v| => Real(v[i])))
  }

  function Serialize(v: Vector, backend: string, model: Option<string>): Option<Json> {
    match StableBackend(backend)
    case None => None
    case Some(stable) =>
      if v == [] || Some(|v|) != StableDimensions(stable) then None
      else match CanonicalModel(stable, model)
        case None => None
        case Some(m) =>
          Some(Obj(map["version" := Int(EMBEDDING_PAYLOAD_VERSION), "backend" := Str(stable), "model" := Str(m),
                       "dimensions" := Int(|v|), "vector" := VectorJson(v)]))
  }

  function Parse(j: Json): Option<Parsed> {
    match j
    case Arr(items) =>
      if items == [] then None
      else (match CoerceFinite(items)
            case None => None
            case Some(v) => Some(Parsed(v, None, None, None, |v|, true)))
    case Obj(fields) =>
      if !({"version", "backend", "dimensions", "vector"} <= fields.Keys) then None
      else ParseFields(fields["version"], fields["backend"], fields["dimensions"], fields["vector"],
                       if "model" in fields then fields["model"] else Null)
    case _ => None
  }

  function ParseFields(version: Json, backend: Json, dimensions: Json, vector: Json, model: Json): Option<Parsed> {
    if version != Int(EMBEDDING_PAYLOAD_VERSION) || !backend.Str? then None
    else
      var expected := StableDimensions(backend.s);
      if expected.None? || dimensions != Int(expected.value) || !vector.Arr? || vector.items == [] then None
      else match CoerceFinite(vector.items)
        case None => None
        case Some(v) =>
          if |v| != expected.value || !(model.Null? || model.Str?) then None
          else match CanonicalModel(backend.s, if model.Str? then Some(model.s) else None)
            case None => None
            case Some(m) => Some(Parsed(v, Some(EMBEDDING_PAYLOAD_VERSION), Some(backend.s), Some(m), |v|, false))
  }

  lemma {:induction false} CoerceOfVector(items: seq<Json>, v: Vector)
    requires |items| == |v| && forall i :: 0 <= i < |v| ==> items[i] == Real(v[i])
    ensures CoerceFinite(items) == Some(v)
  {
    if v != [] {
      CoerceOfVector(items[..|v| - 1], v[..|v| - 1]);
      assert v == v[..|v| - 1] + [v[|v| - 1]];
    }
  }

  /** What is serialized parses back, with the backend's stable name and model. */
  lemma SerializeParses(v: Vector, backend: string, model: Option<string>)
    ensures Serialize(v, backend, model).Some? ==>
              var stable := StableBackend(backend).value;
              Parse(Serialize(v, backend, model).value) == Some(Parsed(v, Some(1), Some(stable), Some(stable), |v|, false))
  {
    if Serialize(v, backend, model).Some? {
      var stable := StableBackend(backend).value;
      CoerceOfVector(VectorJson(v).items, v);
      var fields := Serialize(v, backend, model).value.fields;
      assert fields["version"] == Int(1) && fields["backend"] == Str(stable) && fields["model"] == Str(stable);
      assert fields["dimensions"] == Int(|v|) && fields["vector"] == VectorJson(v);
      assert {"version", "backend", "dimensions", "vector"} <= fields.Keys;
      assert VectorJson(v).items != [];
    }
  }

  /** The names under which a backend is configured, its own included. */
  predicate Names(stable: string, name: string) {
    if stable == "hash-v1" then name in ["fallback", "hash-v1"]
    else name in ["sentence-transformers", "sentence-transformers/all-MiniLM-L6-v2"]
  }

  /** What can be serialized: a vector of 128 numbers from the hash backend or of 384 from the other, with no model, or
      one that is a name of the same backend. */
  lemma SerializesExactly(v: Vector, backend: string, model: Option<string>)
    ensures Serialize(v, backend, model).Some? <==>
              exists stable :: && ((stable == "hash-v1" && |v| == 128) || (stable == "sentence-transformers/all-MiniLM-L6-v2" && |v| == 384))
                               && Names(stable, Strip(backend)) && (model == None || model == Some("") || Names(stable, model.value))
  {
    var hash, minilm := "hash-v1", "sentence-transformers/all-MiniLM-L6-v2";
    if StableBackend(backend) == Some(hash) {
      assert Names(hash, Strip(backend));
    } else if StableBackend(backend) == Some(minilm) {
      assert Names(minilm, Strip(backend));
    }
  }

  /** The known backends and their dimensions. */
  lemma DimensionsExactly(stable: string, n: nat)
    ensures StableDimensions(stable) == Some(n) <==>
              (stable == "hash-v1" && n == 128) || (stable == "sentence-transformers/all-MiniLM-L6-v2" && n == 384)
  {
  }

  /** A model is taken if there is none, or if it is a name of the backend. */
  lemma CanonicalExactly(stable: string, model: Option<string>)
    requires StableDimensions(stable).Some?
    ensures CanonicalModel(stable, model).Some? <==> model == None || model == Some("") || Names(stable, model.value)
  {
  }

  /** The fields of a versioned payload, with the model given apart: null where it is missing. */
  predicate WellFormedFields(version: Json, backend: Json, dimensions: Json, vector: Json, model: Json) {
    && version == Int(1) && backend.Str? && vector.Arr? && vector.items != [] && AllNumbers(vector.items)
    && StableDimensions(backend.s) == Some(|vector.items|) && dimensions == Int(|vector.items|)
    && (model.Null? || model.Str?) && CanonicalModel(backend.s, if model.Str? then Some(model.s) else None).Some?
  }

  lemma FieldsExactly(version: Json, backend: Json, dimensions: Json, vector: Json, model: Json)
    ensures ParseFields(version, backend, dimensions, vector, model).Some? <==> WellFormedFields(version, backend, dimensions, vector, model)
    ensures WellFormedFields(version, backend, dimensions, vector, model) ==>
              Some(ParseFields(version, backend, dimensions, vector, model).value.vector) == CoerceFinite(vector.items)
  {
    if vector.Arr? {
      CoerceMeaning(vector.items);
    }
  }

  /** What parses: a nonempty array of numbers, or an object of version 1 with a known backend, its dimensions, as many
      numbers, and no model or a name of that backend. */
  lemma ParsesExactly(j: Json)
    ensures Parse(j).Some? <==>
              match j
              case Arr(items) => items != [] && AllNumbers(items)
              case Obj(fields) =>
                {"version", "backend", "dimensions", "vector"} <= fields.Keys
                && WellFormedFields(fields["version"], fields["backend"], fields["dimensions"], fields["vector"],
                                    if "model" in fields then fields["model"] else Null)
              case _ => false
  {
    match j
    case Arr(items) => CoerceMeaning(items);
    case Obj(fields) =>
      if {"version", "backend", "dimensions", "vector"} <= fields.Keys {
        FieldsExactly(fields["version"], fields["backend"], fields["dimensions"], fields["vector"],
                      if "model" in fields then fields["model"] else Null);
      }
    case _ =>
  }

  /** A parsed payload is either legacy with unknown origin or fully known with its backend's dimensions. */
  lemma ParsedShape(j: Json)
    ensures Parse(j).Some? ==>
              var p := Parse(j).value;
              && p.vector != [] && p.dimensions == |p.vector|
              && (if p.legacy then p.backend == None && p.version == None && p.model == None
                  else && p.version == Some(1) && p.model == p.backend
                       && (if p.dimensions == 128 then p.backend == Some("hash-v1")
                           else p.dimensions == 384 && p.backend == Some("sentence-transformers/all-MiniLM-L6-v2")))
  {
  }

  datatype Compatibility = Incompatible | LegacySameDimension | SameBackend

  function Compatible(query: Parsed, stored: Parsed): Compatibility {
    if query.dimensions != stored.dimensions then Incompatible
    else if stored.legacy || stored.backend == None then LegacySameDimension
    else if query.backend == None then Incompatible
    else if stored.backend != query.backend then Incompatible
    else SameBackend
  }

  function QueryMeta(v: Vector, backend: string, model: Option<string>): Option<Parsed> {
    match StableBackend(backend)
    case None => None
    case Some(stable) =>
      match CanonicalModel(stable, model)
      case None => None
      case Some(m) =>
        if Some(|v|) != StableDimensions(stable) then None
        else Some(Parsed(v, Some(EMBEDDING_PAYLOAD_VERSION), Some(stable), Some(m), |v|, false))
  }

  /** A query is described as the payload of its own vector would parse, and refused where that could not be written. */
  lemma QueryIsItsPayload(v: Vector, backend: string, model: Option<string>)
    ensures QueryMeta(v, backend, model).Some? <==> Serialize(v, backend, model).Some?
    ensures Serialize(v, backend, model).Some? ==> QueryMeta(v, backend, model) == Parse(Serialize(v, backend, model).value)
  {
    SerializeParses(v, backend, model);
  }
}

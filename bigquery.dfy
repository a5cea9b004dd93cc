/**
 * The BigQuery sink of analysis results: the conversion of an output
 * schema into table fields (plus eleven metadata fields) when a table is
 * created, and the flattened row inserted for one analysed file.
 *
 * The dataset is an object holding the tables that exist (name to fields)
 * and the rows inserted so far; the client, the credentials and the
 * network are not modelled.  JSON.stringify is a function parameter.
 */
module BigQuery {
  import opened Wrappers
  import opened Strings
  import opened Json

  datatype Mode = Nullable | Required

  datatype Field = Field(name: string, fieldType: string, mode: Mode)

  /** The TypeError of reading `.type` of a null descriptor. */
  const NullDescriptor := "Cannot read properties of null (reading 'type')"

  /** A column type the conversion produces from a typed descriptor. */
  predicate IsMappedType(t: string)
  {
    t == "STRING" || t == "INTEGER" || t == "FLOAT" || t == "BOOLEAN"
  }

  /** The switch on `descriptor.type`: integer, number and boolean have their own column types, all else is a string. */
  function TypeOfDescriptor(t: Option<Json>): string
  {
    if t == Some(JStr("integer")) then "INTEGER"
    else if t == Some(JStr("number")) then "FLOAT"
    else if t == Some(JStr("boolean")) then "BOOLEAN"
    else "STRING"
  }

  /**
   * The column type of one schema entry.  An object descriptor is mapped
   * by its `type` (arrays and objects are stored as JSON text, so STRING);
   * a bare string descriptor is upper-cased; anything else is STRING.
   * `typeof null` is "object", so a null descriptor throws.
   */
  function ColumnType(descriptor: Json): (r: Result<string, string>)
    ensures r.Err? <==> descriptor.JNull?
    ensures descriptor.JStr? ==> r == Ok(ToUpper(descriptor.s))
    ensures !descriptor.JStr? && r.Ok? ==> IsMappedType(r.value)
    ensures descriptor.JObj? ==>
      && (r == Ok("INTEGER") <==> Get(descriptor.entries, "type") == Some(JStr("integer")))
      && (r == Ok("FLOAT") <==> Get(descriptor.entries, "type") == Some(JStr("number")))
      && (r == Ok("BOOLEAN") <==> Get(descriptor.entries, "type") == Some(JStr("boolean")))
    ensures descriptor.JBool? || descriptor.JNum? || descriptor.JArr? ==> r == Ok("STRING")
  {
    match descriptor
    case JNull => Err(NullDescriptor)
    case JObj(es) => Ok(TypeOfDescriptor(Get(es, "type")))
    case JStr(s) => Ok(ToUpper(s))
    case _ => Ok("STRING")
  }

  /**
   * `Object.entries(schema).map(...)`: one NULLABLE field per schema entry,
   * with the entry's name, in order; the first null descriptor throws.
   */
  function SchemaFields(schema: seq<(string, Json)>): (r: Result<seq<Field>, string>)
    ensures r.Err? <==> exists i :: 0 <= i < |schema| && schema[i].1.JNull?
    ensures r.Ok? ==> |r.value| == |schema|
    ensures r.Ok? ==> forall i :: 0 <= i < |schema| ==>
      r.value[i] == Field(schema[i].0, ColumnType(schema[i].1).value, Nullable)
  {
    if schema == [] then Ok([])
    else
      match ColumnType(schema[0].1)
      case Err(e) => Err(e)
      case Ok(t) =>
        match SchemaFields(schema[1..])
        case Err(e) =>
          assert exists i :: 0 <= i < |schema[1..]| && schema[1..][i].1.JNull?;
          Err(e)
        case Ok(rest) => Ok([Field(schema[0].0, t, Nullable)] + rest)
  }

  /** The metadata fields appended after the schema's own. */
  const MetadataFields: seq<Field> := [
    Field("session_id", "INTEGER", Required),
    Field("file_id", "INTEGER", Required),
    Field("filename", "STRING", Required),
    Field("brand", "STRING", Nullable),
    Field("target_audience", "STRING", Nullable),
    Field("category", "STRING", Nullable),
    Field("primary_message", "STRING", Nullable),
    Field("secondary_message_1", "STRING", Nullable),
    Field("secondary_message_2", "STRING", Nullable),
    Field("version", "STRING", Nullable),
    Field("created_at", "TIMESTAMP", Required)
  ]

  predicate IsRequiredMetadata(name: string)
  {
    name == "session_id" || name == "file_id" || name == "filename" || name == "created_at"
  }

  /** Eleven metadata fields; the ids, the file name and the creation time are REQUIRED, the rest NULLABLE. */
  lemma MetadataModes()
    ensures |MetadataFields| == 11
    ensures forall i :: 0 <= i < |MetadataFields| ==>
      (MetadataFields[i].mode == Required <==> IsRequiredMetadata(MetadataFields[i].name))
  {
  }

  // ---------------------------------------------------------------------------
  // Rows
  // ---------------------------------------------------------------------------

  /** The context fields a row carries; `version` is optional. */
  datatype ContextFields = ContextFields(
    brand: string, targetAudience: string, category: string,
    primaryMessage: string, secondaryMessage1: string, secondaryMessage2: string,
    version: Option<string>)

  /** What insertAnalysisResult is called with. */
  datatype InsertParams = InsertParams(
    tableName: string, sessionId: int, fileId: int, filename: string,
    contextFields: ContextFields, analysisData: Json)

  /** A non-null object or array becomes its JSON text; primitives and null stay. */
  function FlatValue(v: Json, stringify: Json -> string): (r: Json)
    ensures !r.JObj? && !r.JArr?
    ensures !v.JObj? && !v.JArr? ==> r == v
  {
    if v.JObj? || v.JArr? then JStr(stringify(v)) else v
  }

  /**
   * `flattenedData[key] = flat(value)` for the entries of `es`, in order,
   * on a plain object: a `__proto__` entry reaches the inherited setter.
   */
  function Flattened(es: seq<(string, Json)>, stringify: Json -> string): seq<(string, Json)>
  {
    if es == [] then []
    else
      var last := es[|es| - 1];
      AssignKey(Flattened(es[..|es| - 1], stringify), last.0, FlatValue(last.1, stringify))
  }

  /** The flatten loop of insertAnalysisResult over `Object.entries(analysisData)`. */
  method Flatten(analysisData: Json, stringify: Json -> string) returns (flattenedData: seq<(string, Json)>)
    ensures flattenedData == Flattened(ObjectEntries(analysisData), stringify)
  {
    var es := ObjectEntries(analysisData);
    flattenedData := [];
    var i := 0;
    while i < |es|
      invariant 0 <= i <= |es|
      invariant flattenedData == Flattened(es[..i], stringify)
    {
      assert es[..i + 1][..i] == es[..i];
      flattenedData := AssignKey(flattenedData, es[i].0, FlatValue(es[i].1, stringify));
      i := i + 1;
    }
    assert es[..|es|] == es;
  }

  /** Setting a new key appends it. */
  lemma {:induction false} SetKeyNew(es: seq<(string, Json)>, k: string, v: Json)
    requires k !in Keys(es)
    ensures SetKey(es, k, v) == es + [(k, v)]
  {
    if es != [] {
      assert Keys(es) == [es[0].0] + Keys(es[1..]);
      SetKeyNew(es[1..], k, v);
    }
  }

  /** Every entry after a write is an entry from before or the written one. */
  lemma {:induction false} SetKeyEntries(es: seq<(string, Json)>, k: string, v: Json)
    ensures forall p :: p in SetKey(es, k, v) ==> p in es || p == (k, v)
  {
    if es != [] && es[0].0 != k {
      SetKeyEntries(es[1..], k, v);
    }
  }

  /**
   * With unique keys (a parsed object), flattening keeps every key but
   * `__proto__` in its place and flattens each value on its own; the
   * `__proto__` entry leaves no key behind.
   */
  lemma {:induction false} FlattenedUnique(es: seq<(string, Json)>, stringify: Json -> string)
    requires UniqueKeys(es)
    ensures var r := Flattened(es, stringify); var own := WithoutKey(es, ProtoKey);
      |r| == |own| && forall i :: 0 <= i < |own| ==> r[i] == (own[i].0, FlatValue(own[i].1, stringify))
  {
    if es != [] {
      var init := es[..|es| - 1];
      var last := es[|es| - 1];
      assert UniqueKeys(init) by {
        forall i, j | 0 <= i < j < |init| ensures init[i].0 != init[j].0 {
          assert init[i] == es[i] && init[j] == es[j];
        }
      }
      FlattenedUnique(init, stringify);
      var fi := Flattened(init, stringify);
      var own := WithoutKey(init, ProtoKey);
      if last.0 != ProtoKey {
        assert Keys(fi) == Keys(own);
        assert last.0 !in Keys(init) by {
          forall i | 0 <= i < |init| ensures Keys(init)[i] != last.0 {
            assert init[i] == es[i];
          }
        }
        SetKeyNew(fi, last.0, FlatValue(last.1, stringify));
        assert WithoutKey(es, ProtoKey) == own + [last];
      } else {
        assert WithoutKey(es, ProtoKey) == own;
      }
    }
  }

  /** Without a `__proto__` key, a parsed object's row is its entries with each value flattened. */
  lemma FlattenedUniqueNoProto(es: seq<(string, Json)>, stringify: Json -> string)
    requires UniqueKeys(es) && ProtoKey !in Keys(es)
    ensures Flattened(es, stringify) == seq(|es|, i requires 0 <= i < |es| => (es[i].0, FlatValue(es[i].1, stringify)))
  {
    FlattenedUnique(es, stringify);
  }

  /** No `__proto__` key is ever created in a flattened row, whatever the entries. */
  lemma {:induction false} FlattenedNoProto(es: seq<(string, Json)>, stringify: Json -> string)
    ensures ProtoKey !in Keys(Flattened(es, stringify))
  {
    if es != [] {
      FlattenedNoProto(es[..|es| - 1], stringify);
    }
  }

  /** No object or array is left in a flattened row. */
  lemma {:induction false} FlattenedNoNesting(es: seq<(string, Json)>, stringify: Json -> string)
    ensures forall p :: p in Flattened(es, stringify) ==> !p.1.JObj? && !p.1.JArr?
  {
    if es != [] {
      var init := es[..|es| - 1];
      var last := es[|es| - 1];
      FlattenedNoNesting(init, stringify);
      if last.0 != ProtoKey {
        SetKeyEntries(Flattened(init, stringify), last.0, FlatValue(last.1, stringify));
      }
    }
  }

  /** `contextFields.version || null`. */
  function VersionOrNull(version: Option<string>): Json
  {
    if version.Some? && version.value != "" then JStr(version.value) else JNull
  }

  /** The metadata entries of a row, in the order they are written. */
  function MetadataValues(p: InsertParams, createdAt: string): seq<(string, Json)>
  {
    var c := p.contextFields;
    [ ("session_id", JNum(p.sessionId)), ("file_id", JNum(p.fileId)), ("filename", JStr(p.filename)),
      ("brand", JStr(c.brand)), ("target_audience", JStr(c.targetAudience)), ("category", JStr(c.category)),
      ("primary_message", JStr(c.primaryMessage)), ("secondary_message_1", JStr(c.secondaryMessage1)),
      ("secondary_message_2", JStr(c.secondaryMessage2)), ("version", VersionOrNull(c.version)),
      ("created_at", JStr(createdAt)) ]
  }

  /** `{...base, k1: v1, k2: v2, ...}`: each written key overrides the spread one in its place. */
  function WithAll(base: seq<(string, Json)>, kvs: seq<(string, Json)>): seq<(string, Json)>
    decreases |kvs|
  {
    if kvs == [] then base else WithAll(SetKey(base, kvs[0].0, kvs[0].1), kvs[1..])
  }

  /** A written key reads its written value; every other key reads what the spread object had. */
  lemma {:induction false} GetWithAll(base: seq<(string, Json)>, kvs: seq<(string, Json)>, k: string)
    requires UniqueKeys(kvs)
    ensures Get(WithAll(base, kvs), k) == if k in Keys(kvs) then Get(kvs, k) else Get(base, k)
    decreases |kvs|
  {
    if kvs != [] {
      assert Keys(kvs) == [kvs[0].0] + Keys(kvs[1..]);
      GetWithAll(SetKey(base, kvs[0].0, kvs[0].1), kvs[1..], k);
      GetSetKey(base, kvs[0].0, kvs[0].1, k);
      if k == kvs[0].0 {
        assert k !in Keys(kvs[1..]);
      }
    }
  }

  /** The row insertAnalysisResult builds. */
  function Row(p: InsertParams, stringify: Json -> string, createdAt: string): seq<(string, Json)>
  {
    WithAll(Flattened(ObjectEntries(p.analysisData), stringify), MetadataValues(p, createdAt))
  }

  /**
   * In a row, the metadata override analysis keys of the same name; an
   * absent or empty version is null; every other key carries its
   * flattened analysis value.
   */
  lemma RowValues(p: InsertParams, stringify: Json -> string, createdAt: string, k: string)
    ensures var meta := MetadataValues(p, createdAt);
      Get(Row(p, stringify, createdAt), k)
        == if k in Keys(meta) then Get(meta, k) else Get(Flattened(ObjectEntries(p.analysisData), stringify), k)
    ensures Get(Row(p, stringify, createdAt), "session_id") == Some(JNum(p.sessionId))
    ensures p.contextFields.version.None? || p.contextFields.version == Some("") ==>
      Get(Row(p, stringify, createdAt), "version") == Some(JNull)
  {
    var meta := MetadataValues(p, createdAt);
    assert UniqueKeys(meta) by {
      forall i, j | 0 <= i < j < |meta| ensures meta[i].0 != meta[j].0 {
        assert |meta[i].0| != |meta[j].0| || meta[i].0[0] != meta[j].0[0]
          || meta[i].0[|meta[i].0| - 1] != meta[j].0[|meta[j].0| - 1];
      }
    }
    var flat := Flattened(ObjectEntries(p.analysisData), stringify);
    GetWithAll(flat, meta, k);
    GetWithAll(flat, meta, "session_id");
    GetWithAll(flat, meta, "version");
    assert Keys(meta)[0] == "session_id" && Keys(meta)[9] == "version";
    assert meta[9] == ("version", VersionOrNull(p.contextFields.version));
  }

  /** A dataset: the tables that exist, with their fields, and the rows inserted, by table. */
  class Dataset {
    var tables: map<string, seq<Field>>
    var inserted: seq<(string, seq<(string, Json)>)>

    constructor (existing: map<string, seq<Field>>)
      ensures tables == existing && inserted == []
    {
      tables := existing;
      inserted := [];
    }

    /**
     * ensureTableExists: an existing table is left alone; otherwise the
     * table is created with the schema's fields followed by the metadata
     * fields (and a null descriptor makes the conversion throw).
     */
    method EnsureTableExists(tableName: string, schema: seq<(string, Json)>) returns (r: Result<(), string>)
      modifies this
      ensures inserted == old(inserted)
      ensures tableName in old(tables) ==> r.Ok? && tables == old(tables)
      ensures tableName !in old(tables) && SchemaFields(schema).Err? ==> r.Err? && tables == old(tables)
      ensures tableName !in old(tables) && SchemaFields(schema).Ok? ==>
        r.Ok? && tables == old(tables)[tableName := SchemaFields(schema).value + MetadataFields]
    {
      if tableName in tables {
        return Ok(());
      }
      match SchemaFields(schema)
      case Err(e) =>
        return Err(e);
      case Ok(schemaFields) =>
        var fields := schemaFields + MetadataFields;
        tables := tables[tableName := fields];
        return Ok(());
    }

    /** insertAnalysisResult: the flattened row with its metadata is inserted into the named table. */
    method InsertAnalysisResult(p: InsertParams, stringify: Json -> string, now: string)
      modifies this
      ensures tables == old(tables)
      ensures inserted == old(inserted) + [(p.tableName, Row(p, stringify, now))]
    {
      var flattenedData := Flatten(p.analysisData, stringify);
      var row := WithAll(flattenedData, MetadataValues(p, now));
      inserted := inserted + [(p.tableName, row)];
    }
  }
}

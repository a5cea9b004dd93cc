/**
 * The analysis router: classification of an upload by MIME type, the
 * storage key of an uploaded file, the `runAnalysis` batch over the files of
 * a session (one validator run, one stored record and at most one BigQuery
 * insert per file) and the `getResults` join of stored results with files.
 *
 * The database, the file store, BigQuery and the clock are not modelled:
 * the files of a session are a parameter, the stored records and attempted
 * inserts are returned as logs, and fresh ids are parameters.
 */
module AnalysisRouter {
  import opened Wrappers
  import opened Strings
  import opened Json
  import opened VertexAI
  import opened Trpc
  import opened PromptTypes
  import opened BigQuery

  const NotImageOrVideo := "File must be an image or video"
  const NoFiles := "No files found for this session"

  // ---------------------------------------------------------------------------
  // Uploads
  // ---------------------------------------------------------------------------

  /**
   * The filetype of an upload: `image/...` is an image, `video/...` a video,
   * anything else is refused.  The filetype's name followed by `/` is always
   * how the MIME type starts.
   */
  function ClassifyMime(mime: string): (r: Result<FileType, TrpcError>)
    ensures r.Ok? <==> "image/" <= mime || "video/" <= mime
    ensures r.Ok? ==> FileTypeName(r.value) + "/" <= mime
    ensures r.Err? ==> r.error == TrpcError(BadRequest, NotImageOrVideo)
  {
    if "image/" <= mime then Ok(Image)
    else if "video/" <= mime then Ok(Video)
    else Err(TrpcError(BadRequest, NotImageOrVideo))
  }

  /** The part of a storage key fixed by the user and the session: `<userId>/sessions/<sessionId>/`. */
  function SessionKeyPrefix(userId: int, sessionId: int): string
  {
    IntToString(userId) + "/sessions/" + IntToString(sessionId) + "/"
  }

  /**
   * The storage key `<userId>/sessions/<sessionId>/<fresh id>-<filename>`:
   * the session prefix, then the fresh id, then a dash and the file name,
   * and nothing else.
   */
  function FileKey(userId: int, sessionId: int, freshId: string, filename: string): (r: string)
    ensures var n := |SessionKeyPrefix(userId, sessionId)|;
      && |r| == n + |freshId| + 1 + |filename|
      && r[..n] == SessionKeyPrefix(userId, sessionId)
      && r[n..n + |freshId|] == freshId
      && r[n + |freshId|..] == "-" + filename
  {
    var prefix := SessionKeyPrefix(userId, sessionId);
    var middle := prefix + freshId;
    var key := middle + "-" + filename;
    assert key == middle + ("-" + filename);
    assert key[..|prefix|] == middle[..|prefix|] == prefix;
    assert key[|prefix|..|middle|] == middle[|prefix|..] == freshId;
    key
  }

  /**
   * Two uploads of the same file by the same user into the same session get
   * the same key only when their fresh ids are the same.
   */
  lemma FileKeyDistinct(userId: int, sessionId: int, id1: string, id2: string, filename: string)
    ensures FileKey(userId, sessionId, id1, filename) == FileKey(userId, sessionId, id2, filename) ==> id1 == id2
  {
    var prefix := SessionKeyPrefix(userId, sessionId);
    var k1 := FileKey(userId, sessionId, id1, filename);
    var k2 := FileKey(userId, sessionId, id2, filename);
    if k1 == k2 {
      assert |id1| == |id2|;
      assert k1[|prefix|..|prefix| + |id1|] == id1;
      assert k2[|prefix|..|prefix| + |id2|] == id2;
    }
  }

  /** What generateUploadUrl returns besides the signed URLs. */
  datatype UploadTarget = UploadTarget(fileKey: string, filetype: FileType)

  /**
   * generateUploadUrl: the MIME type is classified before anything else;
   * the key is built from the user, the session, a fresh id and the name.
   */
  function GenerateUploadUrl(userId: int, sessionId: int, filename: string, contentType: string, freshId: string): (r: Result<UploadTarget, TrpcError>)
    ensures r.Ok? <==> ClassifyMime(contentType).Ok?
    ensures r.Err? ==> r.error == TrpcError(BadRequest, NotImageOrVideo)
    ensures r.Ok? ==> FileTypeName(r.value.filetype) + "/" <= contentType
    ensures r.Ok? ==> |r.value.fileKey| > |filename| && r.value.fileKey[|r.value.fileKey| - |filename| - 1..] == "-" + filename
    ensures r.Ok? ==> r.value.fileKey == SessionKeyPrefix(userId, sessionId) + freshId + "-" + filename
  {
    match ClassifyMime(contentType)
    case Err(e) => Err(e)
    case Ok(filetype) =>
      Ok(UploadTarget(FileKey(userId, sessionId, freshId, filename), filetype))
  }

  /** The row createFile is asked to insert. */
  datatype NewFile = NewFile(
    sessionId: int, filename: string, fileKey: string, fileUrl: string,
    filetype: FileType, mimeType: string, fileSize: int, context: ContextFields)

  /**
   * uploadFile: classify, build the key, and describe the file row with an
   * empty URL (set once the upload is done) and the context fields spread in.
   */
  function UploadFile(userId: int, sessionId: int, filename: string, mimeType: string, fileSize: int,
                      context: ContextFields, freshId: string): (r: Result<NewFile, TrpcError>)
    ensures r.Ok? <==> ClassifyMime(mimeType).Ok?
    ensures r.Err? ==> r.error == TrpcError(BadRequest, NotImageOrVideo)
    ensures r.Ok? ==> && r.value.fileUrl == "" && r.value.context == context
                      && r.value.mimeType == mimeType && r.value.sessionId == sessionId
                      && FileTypeName(r.value.filetype) + "/" <= mimeType
    ensures r.Ok? ==> && r.value.filename == filename && r.value.fileSize == fileSize
                      && r.value.fileKey == SessionKeyPrefix(userId, sessionId) + freshId + "-" + filename
  {
    match ClassifyMime(mimeType)
    case Err(e) => Err(e)
    case Ok(filetype) =>
      Ok(NewFile(sessionId, filename, FileKey(userId, sessionId, freshId, filename), "", filetype, mimeType, fileSize, context))
  }

  /** uploadFile and generateUploadUrl agree on the filetype and the key. */
  lemma UploadAgreesWithUploadUrl(userId: int, sessionId: int, filename: string, mimeType: string, fileSize: int,
                                  context: ContextFields, freshId: string)
    ensures var u := UploadFile(userId, sessionId, filename, mimeType, fileSize, context, freshId);
      var g := GenerateUploadUrl(userId, sessionId, filename, mimeType, freshId);
      && (u.Ok? <==> g.Ok?)
      && (u.Ok? ==> u.value.filetype == g.value.filetype && u.value.fileKey == g.value.fileKey)
  {
  }

  // ---------------------------------------------------------------------------
  // runAnalysis
  // ---------------------------------------------------------------------------

  /** A row of the files table. */
  datatype FileRow = FileRow(
    id: int, sessionId: int, filename: string, fileKey: string, fileUrl: string,
    filetype: FileType, mimeType: Option<string>, context: ContextFields)

  /** An output schema and the BigQuery table its results go to. */
  datatype OutputConfig = OutputConfig(schema: seq<(string, Json)>, tableName: string)

  /** The key `filetype-focus` of the prompts and output schemas. */
  datatype ConfigKey = ConfigKey(filetype: FileType, focus: Focus)

  function KeyName(k: ConfigKey): string
  {
    FileTypeName(k.filetype) + "-" + FocusName(k.focus)
  }

  /** Different filetype/focus pairs have different key strings, so selecting by the string is selecting by the pair. */
  lemma KeyNameInjective(k1: ConfigKey, k2: ConfigKey)
    requires k1 != k2
    ensures KeyName(k1) != KeyName(k2)
  {
    assert KeyName(k1)[0] != KeyName(k2)[0] || KeyName(k1)[6] != KeyName(k2)[6];
  }

  /** The prompts and output schemas by key. */
  datatype Config = Config(systemPrompts: map<ConfigKey, string>, outputSchemas: map<ConfigKey, OutputConfig>)

  /** The configuration type has a prompt and a schema for every filetype and focus. */
  ghost predicate Complete(config: Config)
  {
    forall k: ConfigKey :: k in config.systemPrompts && k in config.outputSchemas
  }

  /** The injected services the validator runs on: the generator, JSON.parse and JSON.stringify. */
  datatype Services = Services(
    predict: (GenerationRequest, nat) -> Result<Option<seq<PValue>>, string>,
    parse: string -> Result<Json, string>,
    stringify: Json -> string)

  const BatchRetries := 2
  const DefaultMimeType := "application/octet-stream"

  function MimeOrDefault(mime: Option<string>): string
  {
    if mime.Some? && mime.value != "" then mime.value else DefaultMimeType
  }

  /** `file.version || ""`. */
  function VersionOrEmpty(version: Option<string>): string
  {
    if version.Some? then version.value else ""
  }

  /** The context passed to the validator, in the order the placeholders are substituted. */
  function ValidatorContext(c: ContextFields): seq<(string, string)>
  {
    [("brand", c.brand), ("targetAudience", c.targetAudience), ("category", c.category),
     ("primaryMessage", c.primaryMessage), ("secondaryMessage1", c.secondaryMessage1),
     ("secondaryMessage2", c.secondaryMessage2), ("version", VersionOrEmpty(c.version))]
  }

  /** The validator's outcome for one file: the prompt and schema chosen by `filetype-focus`, two retries. */
  function OutcomeFor(svc: Services, config: Config, focus: Focus, file: FileRow): AnalysisOutcome
    requires Complete(config)
  {
    var key := ConfigKey(file.filetype, focus);
    var keys := Keys(config.outputSchemas[key].schema);
    var attempt := GeminiAttempt(svc.predict, svc.parse, file.fileUrl, MimeOrDefault(file.mimeType), ValidatorContext(file.context), keys);
    Run(Env(attempt, keys, svc.stringify, BatchRetries), config.systemPrompts[key], 0, "").outcome
  }

  /** One entry of the returned `results`. */
  datatype ResultEntry = ResultEntry(fileId: int, filename: string, success: bool, result: Option<Json>, error: Option<string>, retryCount: nat)

  /** The analysisResults row createAnalysisResult is asked to insert. */
  datatype AnalysisRecord = AnalysisRecord(
    fileId: int, sessionId: int, focus: Focus, filetype: FileType,
    analysisJson: string, bigqueryTable: Option<string>, retryCount: nat, validationError: Option<string>)

  /** An attempted BigQuery insert: ensureTableExists with the schema, then insertAnalysisResult with the parameters. */
  datatype BigQueryInsert = BigQueryInsert(schema: seq<(string, Json)>, params: InsertParams)

  function Entry(file: FileRow, o: AnalysisOutcome): ResultEntry
  {
    ResultEntry(file.id, file.filename, o.success, o.result, o.error, o.retryCount)
  }

  /** `analysisResult.result || {}`. */
  function ResultOrEmpty(result: Option<Json>): Json
  {
    if result.Some? && Truthy(result.value) then result.value else JObj([])
  }

  /** `analysisResult.error || null`. */
  function ErrorOrNull(error: Option<string>): Option<string>
  {
    if error.Some? && error.value != "" then error else None
  }

  function Record(stringify: Json -> string, config: Config, sessionId: int, focus: Focus, file: FileRow, o: AnalysisOutcome): AnalysisRecord
    requires Complete(config)
  {
    var out := config.outputSchemas[ConfigKey(file.filetype, focus)];
    AnalysisRecord(file.id, sessionId, focus, file.filetype, stringify(ResultOrEmpty(o.result)),
      if o.success then Some(out.tableName) else None, o.retryCount, ErrorOrNull(o.error))
  }

  /** An insert is attempted only for a successful outcome with a truthy result. */
  predicate Inserted(o: AnalysisOutcome)
  {
    o.success && o.result.Some? && Truthy(o.result.value)
  }

  function Insert(config: Config, sessionId: int, focus: Focus, file: FileRow, o: AnalysisOutcome): BigQueryInsert
    requires Complete(config) && o.result.Some?
  {
    var out := config.outputSchemas[ConfigKey(file.filetype, focus)];
    var c := file.context;
    BigQueryInsert(out.schema, InsertParams(out.tableName, sessionId, file.id, file.filename,
      c.(version := if c.version.Some? && c.version.value != "" then c.version else None),
      o.result.value))
  }

  /** The inserts attempted for files[i..], in file order, when each file's analysis turns out as `analyze` says. */
  function InsertsFrom(analyze: FileRow -> AnalysisOutcome, config: Config, sessionId: int, focus: Focus, files: seq<FileRow>, i: nat): seq<BigQueryInsert>
    requires Complete(config) && i <= |files|
    decreases |files| - i
  {
    if i == |files| then []
    else
      var o := analyze(files[i]);
      (if Inserted(o) then [Insert(config, sessionId, focus, files[i], o)] else [])
        + InsertsFrom(analyze, config, sessionId, focus, files, i + 1)
  }

  /** What runAnalysis returns and what it asks the database and BigQuery to store. */
  datatype Batch = Batch(results: seq<ResultEntry>, records: seq<AnalysisRecord>, inserts: seq<BigQueryInsert>)

  /** One call of analyzeWithRetry for a file, with its `filetype-focus` prompt and schema and two retries. */
  method AnalyzeFile(svc: Services, config: Config, focus: Focus, file: FileRow) returns (outcome: AnalysisOutcome)
    requires Complete(config)
    ensures outcome == OutcomeFor(svc, config, focus, file)
  {
    var key := ConfigKey(file.filetype, focus);
    var systemPrompt := config.systemPrompts[key];
    var outputConfig := config.outputSchemas[key];
    outcome := AnalyzeWithRetry(svc.predict, svc.parse, svc.stringify, file.fileUrl, MimeOrDefault(file.mimeType),
      systemPrompt, ValidatorContext(file.context), outputConfig.schema, Some(BatchRetries));
  }

  /**
   * The loop of runAnalysis over the files of a session, with the analysis
   * of a file given as `analyze`: the record of each file is stored, then
   * on success with a result its row is inserted into BigQuery (a failed
   * insert is logged and does not stop the loop, so the inserts attempted
   * are the whole story), then its entry is pushed onto the results.
   */
  method AnalyzeFiles(analyze: FileRow -> AnalysisOutcome, stringify: Json -> string, config: Config,
                      sessionId: int, focus: Focus, files: seq<FileRow>)
    returns (batch: Batch)
    requires Complete(config)
    ensures |batch.results| == |files| && |batch.records| == |files|
    ensures forall j :: 0 <= j < |files| ==> batch.results[j] == Entry(files[j], analyze(files[j]))
    ensures forall j :: 0 <= j < |files| ==> batch.records[j] == Record(stringify, config, sessionId, focus, files[j], analyze(files[j]))
    ensures batch.inserts == InsertsFrom(analyze, config, sessionId, focus, files, 0)
  {
    var results: seq<ResultEntry> := [];
    var records: seq<AnalysisRecord> := [];
    var inserts: seq<BigQueryInsert> := [];
    var i := 0;
    while i < |files|
      invariant 0 <= i <= |files|
      invariant |results| == i && |records| == i
      invariant forall j :: 0 <= j < i ==> results[j] == Entry(files[j], analyze(files[j]))
      invariant forall j :: 0 <= j < i ==> records[j] == Record(stringify, config, sessionId, focus, files[j], analyze(files[j]))
      invariant inserts + InsertsFrom(analyze, config, sessionId, focus, files, i) == InsertsFrom(analyze, config, sessionId, focus, files, 0)
    {
      var file := files[i];
      var outcome := analyze(file);
      records := records + [Record(stringify, config, sessionId, focus, file, outcome)];
      ghost var rest := InsertsFrom(analyze, config, sessionId, focus, files, i + 1);
      if Inserted(outcome) {
        var row := Insert(config, sessionId, focus, file, outcome);
        assert InsertsFrom(analyze, config, sessionId, focus, files, i) == [row] + rest;
        assert (inserts + [row]) + rest == inserts + ([row] + rest);
        inserts := inserts + [row];
      } else {
        assert InsertsFrom(analyze, config, sessionId, focus, files, i) == rest;
      }
      results := results + [Entry(file, outcome)];
      i := i + 1;
    }
    assert inserts + [] == inserts;
    batch := Batch(results, records, inserts);
  }

  /**
   * runAnalysis: a session without files is refused; otherwise every file
   * is analysed in order by the validator (see AnalyzeFile), one entry and
   * one record per file.
   */
  method RunAnalysis(svc: Services, config: Config, sessionId: int, focus: Focus, files: seq<FileRow>)
    returns (r: Result<Batch, TrpcError>)
    requires Complete(config)
    ensures files == [] <==> r.Err?
    ensures r.Err? ==> r.error == TrpcError(BadRequest, NoFiles)
    ensures r.Ok? ==>
      var analyze := (file: FileRow) => OutcomeFor(svc, config, focus, file);
      && |r.value.results| == |files| && |r.value.records| == |files|
      && (forall j :: 0 <= j < |files| ==> r.value.results[j] == Entry(files[j], OutcomeFor(svc, config, focus, files[j])))
      && (forall j :: 0 <= j < |files| ==>
            r.value.records[j] == Record(svc.stringify, config, sessionId, focus, files[j], OutcomeFor(svc, config, focus, files[j])))
      && r.value.inserts == InsertsFrom(analyze, config, sessionId, focus, files, 0)
  {
    if |files| == 0 {
      return Err(TrpcError(BadRequest, NoFiles));
    }
    var batch := AnalyzeFiles((file: FileRow) => OutcomeFor(svc, config, focus, file), svc.stringify, config, sessionId, focus, files);
    return Ok(batch);
  }

  /**
   * Each file's entry carries the validator's bounds for two retries: a
   * success has a result, no error and at most 2 retries; a failure has an
   * error, no result and exactly 3 counted retries.  Its stored record
   * names the BigQuery table exactly when the entry is a success, and keeps
   * the entry's retry count.
   */
  lemma EntryAndRecord(svc: Services, config: Config, sessionId: int, focus: Focus, file: FileRow)
    requires Complete(config)
    ensures var o := OutcomeFor(svc, config, focus, file);
      var e := Entry(file, o);
      var rec := Record(svc.stringify, config, sessionId, focus, file, o);
      && e.fileId == file.id && e.filename == file.filename
      && (e.success <==> e.result.Some?) && (e.success <==> e.error.None?)
      && (e.success ==> e.retryCount <= BatchRetries)
      && (!e.success ==> e.retryCount == BatchRetries + 1)
      && (rec.bigqueryTable.Some? <==> e.success)
      && (rec.bigqueryTable.Some? ==> rec.bigqueryTable.value == config.outputSchemas[ConfigKey(file.filetype, focus)].tableName)
      && rec.retryCount == e.retryCount
      && (e.success ==> rec.validationError.None?)
      && (Inserted(o) ==> rec.analysisJson == svc.stringify(e.result.value))
      && (!Inserted(o) ==> rec.analysisJson == svc.stringify(JObj([])))
  {
    var key := ConfigKey(file.filetype, focus);
    var keys := Keys(config.outputSchemas[key].schema);
    var attempt := GeminiAttempt(svc.predict, svc.parse, file.fileUrl, MimeOrDefault(file.mimeType), ValidatorContext(file.context), keys);
    RunOutcome(Env(attempt, keys, svc.stringify, BatchRetries), config.systemPrompts[key], 0, "");
  }

  /** Some file from index `i` on has an insert-worthy outcome and yields `ins`. */
  ghost predicate InsertOf(analyze: FileRow -> AnalysisOutcome, config: Config, sessionId: int, focus: Focus, files: seq<FileRow>, i: nat, ins: BigQueryInsert)
    requires Complete(config)
  {
    exists j :: i <= j < |files| && Inserted(analyze(files[j])) && ins == Insert(config, sessionId, focus, files[j], analyze(files[j]))
  }

  /**
   * The attempted inserts are exactly the files whose analysis succeeded
   * with a truthy result, in file order: every insert comes from such a file
   * (with the file's id, name and analysis), and every such file is inserted.
   */
  lemma InsertsAreSuccesses(analyze: FileRow -> AnalysisOutcome, config: Config, sessionId: int, focus: Focus, files: seq<FileRow>, i: nat)
    requires Complete(config) && i <= |files|
    ensures var ins := InsertsFrom(analyze, config, sessionId, focus, files, i);
      && |ins| <= |files| - i
      && (forall k :: 0 <= k < |ins| ==> InsertOf(analyze, config, sessionId, focus, files, i, ins[k]))
      && (forall j :: i <= j < |files| && Inserted(analyze(files[j])) ==> Insert(config, sessionId, focus, files[j], analyze(files[j])) in ins)
  {
    InsertsFromSuccesses(analyze, config, sessionId, focus, files, i);
    SuccessesInInserts(analyze, config, sessionId, focus, files, i);
  }

  /** Every attempted insert from index `i` on comes from an insert-worthy file. */
  lemma {:induction false} InsertsFromSuccesses(analyze: FileRow -> AnalysisOutcome, config: Config, sessionId: int, focus: Focus, files: seq<FileRow>, i: nat)
    requires Complete(config) && i <= |files|
    ensures var ins := InsertsFrom(analyze, config, sessionId, focus, files, i);
      && |ins| <= |files| - i
      && (forall k :: 0 <= k < |ins| ==> InsertOf(analyze, config, sessionId, focus, files, i, ins[k]))
    decreases |files| - i
  {
    if i < |files| {
      InsertsFromSuccesses(analyze, config, sessionId, focus, files, i + 1);
      var o := analyze(files[i]);
      var head := if Inserted(o) then [Insert(config, sessionId, focus, files[i], o)] else [];
      var tail := InsertsFrom(analyze, config, sessionId, focus, files, i + 1);
      var ins := InsertsFrom(analyze, config, sessionId, focus, files, i);
      assert ins == head + tail;
      forall k | 0 <= k < |ins|
        ensures InsertOf(analyze, config, sessionId, focus, files, i, ins[k])
      {
        if k < |head| {
          assert ins[k] == Insert(config, sessionId, focus, files[i], o);
        } else {
          assert ins[k] == tail[k - |head|];
          assert InsertOf(analyze, config, sessionId, focus, files, i + 1, tail[k - |head|]);
        }
      }
    }
  }

  /** Every insert-worthy file from index `i` on is attempted. */
  lemma {:induction false} SuccessesInInserts(analyze: FileRow -> AnalysisOutcome, config: Config, sessionId: int, focus: Focus, files: seq<FileRow>, i: nat)
    requires Complete(config) && i <= |files|
    ensures var ins := InsertsFrom(analyze, config, sessionId, focus, files, i);
      forall j :: i <= j < |files| && Inserted(analyze(files[j])) ==> Insert(config, sessionId, focus, files[j], analyze(files[j])) in ins
    decreases |files| - i
  {
    if i < |files| {
      SuccessesInInserts(analyze, config, sessionId, focus, files, i + 1);
      var o := analyze(files[i]);
      var head := if Inserted(o) then [Insert(config, sessionId, focus, files[i], o)] else [];
      var tail := InsertsFrom(analyze, config, sessionId, focus, files, i + 1);
      var ins := InsertsFrom(analyze, config, sessionId, focus, files, i);
      assert ins == head + tail;
      forall j | i <= j < |files| && Inserted(analyze(files[j]))
        ensures Insert(config, sessionId, focus, files[j], analyze(files[j])) in ins
      {
        if j == i {
          assert ins[0] == head[0];
        } else {
          assert Insert(config, sessionId, focus, files[j], analyze(files[j])) in tail;
        }
      }
    }
  }

  // ---------------------------------------------------------------------------
  // getResults
  // ---------------------------------------------------------------------------

  /** A stored analysisResults row. */
  datatype StoredResult = StoredResult(id: int, record: AnalysisRecord)

  /** `{...result, filename, analysisData}`. */
  datatype LabelledResult = LabelledResult(stored: StoredResult, filename: string, analysisData: Json)

  const UnknownFile := "Unknown"

  /** `files.find(f => f.id === fileId)`: the first file with that id. */
  function FindFile(files: seq<FileRow>, fileId: int): (r: Option<FileRow>)
    ensures r.Some? ==> r.value in files && r.value.id == fileId
    ensures r.None? <==> forall f :: f in files ==> f.id != fileId
    ensures r.Some? ==> exists k :: 0 <= k < |files| && files[k] == r.value && forall j :: 0 <= j < k ==> files[j].id != fileId
  {
    if files == [] then None
    else if files[0].id == fileId then Some(files[0])
    else
      var r := FindFile(files[1..], fileId);
      assert forall f :: f in files ==> f == files[0] || f in files[1..];
      if r.Some? then
        ghost var k :| 0 <= k < |files[1..]| && files[1..][k] == r.value && forall j :: 0 <= j < k ==> files[1..][j].id != fileId;
        assert files[k + 1] == r.value;
        r
      else r
  }

  /** `file?.filename || "Unknown"`: a missing file, or one with an empty name, is labelled Unknown. */
  function Label(file: Option<FileRow>): string
  {
    if file.Some? && file.value.filename != "" then file.value.filename else UnknownFile
  }

  /** The join from results[i..]; the first analysisJson that does not parse makes the query fail. */
  function LabelFrom(results: seq<StoredResult>, files: seq<FileRow>, parse: string -> Result<Json, string>, i: nat): Result<seq<LabelledResult>, string>
    requires i <= |results|
    decreases |results| - i
  {
    if i == |results| then Ok([])
    else
      match parse(results[i].record.analysisJson)
      case Err(e) => Err(e)
      case Ok(data) =>
        match LabelFrom(results, files, parse, i + 1)
        case Err(e) => Err(e)
        case Ok(rest) => Ok([LabelledResult(results[i], Label(FindFile(files, results[i].record.fileId)), data)] + rest)
  }

  /** getResults: each stored result of the session with its file's name and its parsed JSON. */
  function GetResults(results: seq<StoredResult>, files: seq<FileRow>, parse: string -> Result<Json, string>): Result<seq<LabelledResult>, string>
  {
    LabelFrom(results, files, parse, 0)
  }

  /**
   * The join succeeds exactly when every stored JSON parses; it then keeps
   * the results' order and content, labels each with the name of the first
   * file carrying its file id, and "Unknown" when there is none.
   */
  lemma {:induction false} LabelFromShape(results: seq<StoredResult>, files: seq<FileRow>, parse: string -> Result<Json, string>, i: nat)
    requires i <= |results|
    ensures var r := LabelFrom(results, files, parse, i);
      && (r.Ok? <==> forall j :: i <= j < |results| ==> parse(results[j].record.analysisJson).Ok?)
      && (r.Ok? ==> |r.value| == |results| - i)
      && (r.Ok? ==> forall j :: i <= j < |results| ==>
            && r.value[j - i].stored == results[j]
            && r.value[j - i].analysisData == parse(results[j].record.analysisJson).value
            && r.value[j - i].filename == Label(FindFile(files, results[j].record.fileId)))
    decreases |results| - i
  {
    if i < |results| {
      LabelFromShape(results, files, parse, i + 1);
      var r := LabelFrom(results, files, parse, i);
      var rest := LabelFrom(results, files, parse, i + 1);
      if r.Ok? {
        var head := LabelledResult(results[i], Label(FindFile(files, results[i].record.fileId)), parse(results[i].record.analysisJson).value);
        assert r.value == [head] + rest.value;
      }
    }
  }

  lemma GetResultsUnknown(results: seq<StoredResult>, files: seq<FileRow>, parse: string -> Result<Json, string>, j: nat)
    requires GetResults(results, files, parse).Ok? && j < |results|
    requires forall f :: f in files ==> f.id != results[j].record.fileId
    ensures |GetResults(results, files, parse).value| == |results|
    ensures GetResults(results, files, parse).value[j].filename == UnknownFile
  {
    LabelFromShape(results, files, parse, 0);
    assert FindFile(files, results[j].record.fileId).None?;
    assert GetResults(results, files, parse).value[j - 0].filename == Label(FindFile(files, results[j].record.fileId));
  }
}

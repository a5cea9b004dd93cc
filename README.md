# A verified model of the creative-analysis core

This project is a Dafny model of the core of a creative-analysis tool. The
tool uploads images and videos and has a generative model analyse each file
against a JSON output schema. It stores the results in MySQL and BigQuery,
and lets users manage the prompts that drive the analysis. The modelled
core consists of:

- **The bounded retry validator** (`server/vertexAI.ts`, module `VertexAI`):
  - substitutes the `{key}` placeholders in the prompt;
  - decodes the Vertex AI prediction;
  - extracts JSON from a fenced block;
  - checks the parsed object's top-level keys;
  - runs the attempt loop, which appends a `PREVIOUS ATTEMPT FAILED` block to the prompt before each retry.
- **The analysis router** (`server/analysisRouter.ts`, module `AnalysisRouter`):
  - upload classification by MIME type and the storage key;
  - `runAnalysis`, the batch over the files of a session: one validator run, one stored record and at most one BigQuery insert per file;
  - `getResults`, the join of stored results with file names.
- **The BigQuery sink** (`server/bigquery.ts`, module `BigQuery`, class `Dataset`): the schema-to-fields conversion, with eleven metadata fields, and the flattened row of one result.
- **The database helpers** (`server/db.ts`, module `Db`, class `Database`):
  - `getDb`: the SSL decision table, the manual pool configuration and the cached connection slot;
  - `upsertUser`: assembly of the inserted values and the on-duplicate update set.
- **The prompt router** (`server/promptRouter.ts`, module `PromptRouter`, class `PromptStore`): list, get, create, update with optimistic locking, delete, and seeding of the defaults.
- **The client prompt cache** (`client/src/contexts/PromptContext.tsx`, module `PromptContext`, class `PromptCache`).
- **The visualization dictionary and class builder** (`shared/visualizationDictionary.ts`, module `VisualizationDictionary`).
- **The schema walk** (`shared/schemaVisualization.ts`, module `SchemaVisualization`):
  - collects the `x-viz` metadata;
  - looks up a field's style by exact or `[]`-pattern path;
  - infers a style from a field name.
- **The one-off annotation script** (`add_viz_annotations.py`, modules `VizAnnotations` and `VizAnnotationProofs`), which writes `x-viz` annotations into a schema by an ordered list of name rules.

Shared helper modules:

- `Wrappers`: Option and Result.
- `Strings`: search, `replaceAll` with its `$` patterns, trim, join, split, decimal digits and ASCII case.
- `Json`: JSON values, and objects as ordered entry lists: `obj[k] = v` updates a key in place or appends it, except that `__proto__` on a plain object goes to the inherited setter and creates no key.
- `Trpc`: error codes and messages.
- `PromptTypes`: prompt configurations and list items.

Code that changes state step by step is modelled as imperative Dafny, and each such method is proved equal to a specification function:

- the retry loop;
- the `runAnalysis` loop;
- the flatten loop;
- the `forEach` over URL parameters;
- the `assignNullable` pass;
- the seeding loop;
- the schema walk;
- the class builder.

Objects that hold state are classes: the prompt store, the client cache, the BigQuery dataset and the connection slot. Pure code is functions, with lemmas for the properties the code promises.

Where the code and its design description part ways, the model follows the code:

- **Retry count on exhaustion.** After exhaustion `retryCount` is `maxRetries + 1`, which is 3 in the batch, not `maxRetries` (`VertexAI.RunOutcome`, `AnalysisRouter.EntryAndRecord`). With a negative budget it is 0.
- **Which keys are checked.** The checked keys are the expected schema's own top-level keys. For a JSON-Schema-shaped schema those are `type`, `properties` and so on, not its `required` list (`VertexAI.RequiredListNotUsed`).
- **Primitive results.** A parsed primitive makes the `in` operator throw. The loop then counts it as a call error with the "Please try again." hint, not as a validation error.
- **Null descriptors.** A `null` descriptor in an output schema makes the BigQuery conversion throw (`BigQuery.ColumnType`).
- **Reads in `get`.** The storage layer swallows read errors, so the fallback branch of `get` cannot be reached (`PromptRouter.PromptStore.Get`).

## Model

| member | source | states |
|---|---|---|
| VertexAI.Placeholder | server/vertexAI.ts:22 | the placeholder is the key between `{` and `}` |
| VertexAI.SubstitutePlaceholders | server/vertexAI.ts:20-24 | the loop equals substituting key by key in context order, each with replaceAll; a template containing no key's placeholder comes back unchanged |
| VertexAI.SubstituteNoPlaceholder | server/vertexAI.ts:20-24 | when no context key's placeholder occurs, substitution is the identity |
| VertexAI.PlaceholderNotOverlapped | server/vertexAI.ts:20-24 | a brace-free key's placeholder cannot overlap the placeholder of a different brace-free name |
| VertexAI.UnknownPlaceholderKept | server/vertexAI.ts:20-24 | a `{name}` that is not a key stays verbatim among known placeholders: the text on each side is substituted on its own (brace-free keys and name, values without `$`) |
| VertexAI.ReplaceFirstPlaceholder | server/vertexAI.ts:23 | replacing a `{key}` whose first occurrence follows `a` puts the value there and continues literally in the rest |
| VertexAI.LaterKeySubstitutedInsideEarlierValue | server/vertexAI.ts:20-24 | keys are applied in order, so a later key is substituted inside an earlier key's value: `{a}` with a=`{b}`, b=`x` gives `x` |
| VertexAI.DecodeResponse | server/vertexAI.ts:91-116 | the text of candidates[0].content.parts[0].text of the first prediction, non-empty; otherwise exactly one of the four thrown messages, with "No predictions" iff the list is absent or empty |
| VertexAI.DecodeFindsText | server/vertexAI.ts:95-116 | a first prediction whose candidates[0].content.parts[0].text is `text` decodes to `text`, or to "No text content" when it is empty, whatever other fields, candidates, parts and predictions there are |
| VertexAI.DecodeOutcomes | server/vertexAI.ts:95-116 | for any first prediction: "Invalid response structure" iff there is no first candidate; then "No content parts" iff its content has no first part; then "No text content" iff that part has no non-empty string text; otherwise that text |
| VertexAI.AnalyzeWithGemini | server/vertexAI.ts:17-116 | a returned text is non-empty (the request carries the substituted prompt) |
| VertexAI.FencedInterior | server/vertexAI.ts:142-143 | a fenced interior is found only when the opening marker occurs |
| VertexAI.UnfencedTextIsParsedWhole | server/vertexAI.ts:142-145 | a response without backticks is parsed whole, trimmed |
| VertexAI.JsonFenceExtracted | server/vertexAI.ts:142-145 | for prefix + ```json + body + ``` + suffix with backtick-free prefix and body, the trimmed body is parsed |
| VertexAI.JsonFencePrecedes | server/vertexAI.ts:142-145 | a ```json fence is used even when a plain ``` fence comes before it: with no ```json inside the prefix, the trimmed body after the first ```json is parsed |
| VertexAI.PlainFenceFallback | server/vertexAI.ts:142-145 | with no ```json anywhere, the trimmed body between the first plain ``` and the next one is parsed |
| VertexAI.OpeningFenceFound | server/vertexAI.ts:142-143 | the first ```json (or ```) is the one right after a backtick-free prefix |
| VertexAI.ClosingFenceFound | server/vertexAI.ts:142-143 | the lazy capture ends at the first ``` after the opening fence, ```json or ``` |
| VertexAI.Missing | server/vertexAI.ts:159-160 | a key is reported missing iff it is a schema key that the parsed object or array does not have (own or inherited property) |
| VertexAI.MissingInKeyOrder | server/vertexAI.ts:159-160 | the missing keys keep schema-key order: the list for a concatenation of keys is the concatenation of the lists, and one key gives itself iff absent |
| VertexAI.CheckKeys | server/vertexAI.ts:159-160 | no keys gives no missing keys; a TypeError iff there is a key to check and the parsed value is a primitive; else exactly the absent keys |
| VertexAI.RequiredListNotUsed | server/vertexAI.ts:159-160 | with a JSON-Schema-shaped expected schema, a result lacking `type` is reported missing `type` whatever its `required` list says |
| VertexAI.EvalAttempt | server/vertexAI.ts:135-171 | a passing attempt has no missing keys; a keys-missing attempt names a non-empty list equal to the check's result; a thrown call is a call failure with its message |
| VertexAI.Feedback | server/vertexAI.ts:150-185 | the appended block starts with the PREVIOUS ATTEMPT FAILED header and the last error |
| VertexAI.FeedbackByKind | server/vertexAI.ts:150-185 | the whole block of each kind: a call error adds "Please try again."; a parse error adds the schema hint and the raw response; missing keys add every schema key and the stringified parse |
| VertexAI.LastErrorByKind | server/vertexAI.ts:147-180 | lastError is the call's message, "JSON parse error: " and the parse error, or "Missing required fields: " and the missing keys joined by ", " |
| VertexAI.RunOutcome | server/vertexAI.ts:130-193 | exactly one of result and error; success only within the budget; exhaustion at retryCount = maxRetries + 1 (or the starting count when it is over budget); one call per prompt |
| VertexAI.RunSuccessPassed | server/vertexAI.ts:172-178 | a success returns the value of a passing attempt made with the last prompt at the returned retryCount |
| VertexAI.RunExhaustionError | server/vertexAI.ts:187-193 | an exhausted run returns as error the lastError of the failed attempt made at retry maxRetries with the last prompt, or the starting lastError when no attempt was made |
| VertexAI.RunFailures | server/vertexAI.ts:146-186 | every attempt before the last one of a run failed |
| VertexAI.RunStartsWithTemplate | server/vertexAI.ts:130-136 | the first call uses the prompt the run starts from |
| VertexAI.RunPrompts | server/vertexAI.ts:146-186 | each later prompt is its predecessor followed by the Feedback block of the failed attempt made with that predecessor |
| VertexAI.RunAfterFailure | server/vertexAI.ts:146-186 | after a failed attempt the run continues from the grown prompt with one more retry counted |
| VertexAI.MaxRetriesOrDefault | server/vertexAI.ts:130 | an absent maxRetries is 2 |
| VertexAI.RetryLoop | server/vertexAI.ts:131-193 | the while loop, with its continue and break paths, returns the outcome of the specification run |
| VertexAI.AnalyzeWithRetry | server/vertexAI.ts:122-194 | the outcome of the run over Gemini attempts with the schema's keys; exactly one of result/error; a success has passed the key check within the budget; a failure has retryCount = max(0, maxRetries + 1) |
| AnalysisRouter.ClassifyMime | server/analysisRouter.ts:53-64 | accepted iff the MIME type starts with `image/` or `video/`, and the filetype's name starts it; else BAD_REQUEST "File must be an image or video" |
| AnalysisRouter.FileKey | server/analysisRouter.ts:67 | the key is the `<userId>/sessions/<sessionId>/` prefix, then the fresh id, then `-` and the file name, and nothing else |
| AnalysisRouter.FileKeyDistinct | server/analysisRouter.ts:67 | two keys for the same user, session and file name are equal only when their fresh ids are |
| AnalysisRouter.GenerateUploadUrl | server/analysisRouter.ts:52-83 | classification decides success; the key is the session prefix, the fresh id, `-` and the file name |
| AnalysisRouter.UploadFile | server/analysisRouter.ts:104-138 | classification decides success; the file row has the file name, size, key (session prefix, fresh id, `-`, name), an empty URL, the MIME type, the session and the context fields spread in |
| AnalysisRouter.UploadAgreesWithUploadUrl | server/analysisRouter.ts:105-119 | uploadFile and generateUploadUrl accept the same MIME types and give the same filetype and key |
| AnalysisRouter.KeyNameInjective | server/analysisRouter.ts:186 | distinct filetype/focus pairs give distinct `filetype-focus` keys |
| AnalysisRouter.AnalyzeFile | server/analysisRouter.ts:185-208 | the validator is run with the key's prompt and schema, the MIME default, the context with `version` or "" and two retries |
| AnalysisRouter.AnalyzeFiles | server/analysisRouter.ts:183-256 | one entry and one record per file, in file order; the inserts are exactly those of successful, truthy results |
| AnalysisRouter.RunAnalysis | server/analysisRouter.ts:172-259 | BAD_REQUEST "No files found" iff the session has no files; otherwise the batch of AnalyzeFiles over the validator's outcomes |
| AnalysisRouter.EntryAndRecord | server/analysisRouter.ts:201-220 | each entry is a success with a result and at most 2 retries, or a failure with an error and 3 retries; the record names the table iff successful and stores the result or `{}` |
| AnalysisRouter.InsertsFromSuccesses | server/analysisRouter.ts:222-246 | every attempted insert comes from a file whose analysis succeeded with a truthy result |
| AnalysisRouter.SuccessesInInserts | server/analysisRouter.ts:222-246 | every file whose analysis succeeded with a truthy result is inserted |
| AnalysisRouter.InsertsAreSuccesses | server/analysisRouter.ts:222-246 | every attempted insert comes from a file whose analysis succeeded with a truthy result, and every such file is inserted |
| AnalysisRouter.FindFile | server/analysisRouter.ts:269 | the first file with the id, or none iff no file has it |
| AnalysisRouter.LabelFromShape | server/analysisRouter.ts:265-275 | the join fails iff some stored JSON does not parse; otherwise it keeps order and content, parses each, and labels each with its file's name |
| AnalysisRouter.GetResultsUnknown | server/analysisRouter.ts:272 | a result whose file is gone is labelled "Unknown" |
| Json.AssignKey | server/bigquery.ts:126-129 | a key other than `__proto__` is updated in place or appended; `__proto__` leaves the keys as they were |
| Json.GetAssignKey | server/db.ts:59 | after the assignment the key reads the value unless it is `__proto__`; every other key reads what it read before |
| Json.WithoutKey | server/bigquery.ts:123-133 | the own properties left when a key is never created: exactly the entries with another key, and all entries when the key is absent |
| BigQuery.ColumnType | server/bigquery.ts:43-67 | a null descriptor throws; a string is upper-cased; an object's `type` integer/number/boolean gives INTEGER/FLOAT/BOOLEAN (both directions); everything else is STRING |
| BigQuery.SchemaFields | server/bigquery.ts:43-74 | fails iff some descriptor is null; else one NULLABLE field per entry with its name and column type, in order |
| BigQuery.MetadataModes | server/bigquery.ts:77-89 | eleven metadata fields, REQUIRED exactly for session_id, file_id, filename and created_at |
| BigQuery.FlatValue | server/bigquery.ts:125-129 | objects and arrays become text; other values stay |
| BigQuery.Flatten | server/bigquery.ts:123-130 | the loop equals assigning the flattened values of Object.entries in order, on a plain object |
| BigQuery.FlattenedUnique | server/bigquery.ts:123-130 | with unique keys every key but `__proto__` keeps its place, with its value flattened, and `__proto__` leaves nothing |
| BigQuery.FlattenedUniqueNoProto | server/bigquery.ts:123-130 | without a `__proto__` key the row is exactly the entries with their values flattened, one by one |
| BigQuery.FlattenedNoProto | server/bigquery.ts:123-130 | the `__proto__` assignment leaves no own key in flattenedData, whatever the entries |
| BigQuery.FlattenedNoNesting | server/bigquery.ts:123-130 | no object or array is left in a flattened row |
| BigQuery.GetWithAll | server/bigquery.ts:132-145 | in `{...base, k: v, ...}` a written key reads its written value, any other its spread value |
| BigQuery.RowValues | server/bigquery.ts:132-145 | metadata override analysis keys of the same name; session_id is the session; an absent or empty version is null |
| BigQuery.Dataset.EnsureTableExists | server/bigquery.ts:30-97 | an existing table is left alone; otherwise it is created with the schema's fields and then the metadata fields, or the conversion throws and nothing changes |
| BigQuery.Dataset.InsertAnalysisResult | server/bigquery.ts:102-150 | exactly one row, the flattened row with metadata, is appended for the named table |
| Db.SslOption | server/db.ts:22-43 | parsed object: verbatim; parsed true: secure; parsed false: off; other parsed values: secure; unparsed "false": off, else secure; SSL is off iff asked off |
| Db.SslSecureUnlessDisabled | server/db.ts:22-43 | any parameter other than a parsed or literal `false` keeps SSL on |
| Db.DatabaseName | server/db.ts:52 | the path without its leading character |
| Db.WithParamsValues | server/db.ts:56-61 | after the copy a parameter other than ssl and `__proto__` reads its last value, also over host/port/user/password/database; every other key (ssl and `__proto__` included) is unchanged |
| Db.ProtoParamNotCopied | server/db.ts:47-61 | a `__proto__` query parameter creates no connection option |
| Db.ConnectionConfig | server/db.ts:47-61 | the base configuration followed by the forEach copy of the parameters |
| Db.BaseConfigUnique | server/db.ts:47-54 | the base configuration names each option once |
| Db.PoolConfig | server/db.ts:47-61 | a pool's configuration carries the decided SSL option whatever the parameters, and the URL's port (3306 default) and database unless overridden |
| Db.FirstParam | server/db.ts:17 | `searchParams.get` returns the value of a parameter with that name that no earlier parameter has, or none iff no parameter has the name |
| Db.ReplaceFirst | server/db.ts:16 | a string `replace` puts the value in place of the first occurrence (none before it) and keeps the rest; without an occurrence nothing changes |
| Db.Database.GetDb | server/db.ts:9-77 | a connection once made is reused; an empty URL does nothing; an unparseable URL leaves none; no or empty `ssl` uses the URL; else a user name or password that does not decode leaves none, and otherwise a pool from the decided configuration |
| Db.AssignBoth | server/db.ts:99-105 | a given value is written to the same column of both records and nothing else changes; the update set stays empty iff it was and nothing is given |
| Db.AssignTextFields | server/db.ts:91-107 | values hold openId; each text column is in both records iff given, null kept as null; no role or sign-in yet; the update set is empty iff no text column is given |
| Db.UpsertUser | server/db.ts:79-127 | empty openId throws; no database does nothing; else the text columns, explicit or owner role, sign-in time (default now) as the code assigns them, and a never-empty update set falling back to the sign-in time |
| PromptTypes.ToListItem | shared/promptTypes.ts:75 | a list item keeps the prompt's id, name, description, filetype, focus, BigQuery table, default flag, creation time, creator and version |
| PromptTypes.ListItemForgetsLargeFields | shared/promptTypes.ts:75 | two prompts have the same list item iff they differ at most in `systemPrompt` and `outputSchema` |
| PromptRouter.DefaultPrompts | server/defaultPrompts.ts:54-120 | four defaults with the reserved ids, in order, each a default at version 1 |
| PromptRouter.FindById | server/defaultPrompts.ts:126-127 | a prompt with the id, or none iff none has it |
| PromptRouter.ListItems | server/promptRouter.ts:37-40 | one list item per default, in order |
| PromptRouter.List | server/promptRouter.ts:31-62 | with a listing: its items merged with the missing defaults, source gcs; when listing fails: the defaults, source fallback |
| PromptRouter.MergedKeepsListing | server/promptRouter.ts:43-48 | the bucket's items come first, unchanged and in order |
| PromptRouter.MergedDefaults | server/promptRouter.ts:43-48 | every default id is listed, and each appended item is a default whose id the bucket did not list |
| PromptRouter.MergedUnique | server/promptRouter.ts:42-48 | a bucket listing with unique ids stays unique after the merge (bucket overrides default) |
| PromptRouter.UpdatedFields | server/promptRouter.ts:201-205 | an update keeps id, filetype, focus, isDefault, createdAt, createdBy, takes each supplied field, keeps each absent one, and bumps the version |
| PromptRouter.UpdateNothing | server/promptRouter.ts:201-205 | an update supplying no field changes only the version |
| PromptRouter.PromptStore.Get | server/promptRouter.ts:73-89 | the stored prompt (gcs) iff it exists, else the default (default), else NOT_FOUND; always the requested id |
| PromptRouter.PromptStore.Create | server/promptRouter.ts:123-154 | CONFLICT if stored, BAD_REQUEST if reserved, an error if the save fails; else stored as non-default version 1 by the creator, and readable |
| PromptRouter.PromptStore.Update | server/promptRouter.ts:172-210 | NOT_FOUND, FORBIDDEN for a default without admin, CONFLICT on a stale version; else the updated prompt is stored and its version returned |
| PromptRouter.PromptStore.Delete | server/promptRouter.ts:218-241 | NOT_FOUND, FORBIDDEN for a default; else the prompt is removed and get falls back to the default |
| PromptRouter.PromptStore.InitializeDefaults | server/promptRouter.ts:248-273 | each missing default is saved and counted (the Seeded function); with an unreachable bucket nothing changes and 0 is counted |
| PromptRouter.SeededStores | server/promptRouter.ts:257-272 | seeding overwrites nothing, leaves every default id stored, adds only defaults, and counts exactly what it added |
| PromptRouter.SeedTwice | server/promptRouter.ts:257-272 | seeding again adds nothing and counts 0 |
| PromptRouter.SeededNothingMissing | server/promptRouter.ts:260-270 | when every default id is stored, seeding changes nothing |
| PromptContext.FindIndex | client/src/contexts/PromptContext.tsx:110 | the first index with the id, or none iff none has it |
| PromptContext.ReplaceOrAppend | client/src/contexts/PromptContext.tsx:109-120 | replaces the first item with the id (length and others kept), else appends; the item is listed afterwards |
| PromptContext.WithoutId | client/src/contexts/PromptContext.tsx:130 | an item survives iff it was listed and has another id |
| PromptContext.WithoutAbsentId | client/src/contexts/PromptContext.tsx:130 | removing an id nobody has keeps the list, order included |
| PromptContext.WithoutAppend | client/src/contexts/PromptContext.tsx:130 | the filter commutes with concatenation, so order is kept |
| PromptContext.ReplaceOrAppendThenRemove | client/src/contexts/PromptContext.tsx:105-131 | updating and then removing a prompt is removing it |
| PromptContext.ReplaceOrAppendIdempotent | client/src/contexts/PromptContext.tsx:105-121 | updating with the same prompt twice is updating once |
| PromptContext.PromptCache.constructor | client/src/contexts/PromptContext.tsx:47-51 | nothing listed or loaded, loading, no error, no source |
| PromptContext.PromptCache.OnListQuery | client/src/contexts/PromptContext.tsx:61-71 | data replaces list and source, ends loading and clears the error; an error is recorded and ends loading; pending changes nothing |
| PromptContext.PromptCache.Refresh | client/src/contexts/PromptContext.tsx:73-77 | loading again and no error, the rest unchanged |
| PromptContext.PromptCache.LoadPrompt | client/src/contexts/PromptContext.tsx:79-99 | a cached prompt is returned without a fetch; else a fetched prompt is cached under the id and returned, and a failed fetch returns nothing and changes nothing |
| PromptContext.PromptCache.GetPrompt | client/src/contexts/PromptContext.tsx:101-103 | the cached prompt, or nothing iff the id is not cached |
| PromptContext.PromptCache.UpdatePromptInCache | client/src/contexts/PromptContext.tsx:105-121 | the prompt is cached under its id and its list item replaces or is appended to the list |
| PromptContext.PromptCache.RemovePromptFromCache | client/src/contexts/PromptContext.tsx:123-131 | the id is neither cached nor listed afterwards; everything else stays |
| VisualizationDictionary.DictionaryTypesMatchKeys | shared/visualizationDictionary.ts:51-126 | every entry's type is its key, and every type but custom has an entry |
| VisualizationDictionary.ResolveStyle | shared/visualizationDictionary.ts:131-146 | an inline style is itself; a known id is its entry; an unknown id is the custom/base/normal/gray-700 fallback |
| VisualizationDictionary.ResolveKnownId | shared/visualizationDictionary.ts:134-141 | a resolved dictionary id names the resolved style's type |
| VisualizationDictionary.VisualizationClasses | shared/visualizationDictionary.ts:151-208 | the pushes in order give the class list; the string is its space join, empty iff no class |
| VisualizationDictionary.PushTextClasses | shared/visualizationDictionary.ts:152-188 | size, weight, colour, italic and underline pushes give the text classes |
| VisualizationDictionary.ClassStringEmpty | shared/visualizationDictionary.ts:207 | the class string is empty iff no setting renders a class |
| VisualizationDictionary.ClassSources | shared/visualizationDictionary.ts:151-205 | every class comes from one of the nine settings |
| VisualizationDictionary.TextClassSources | shared/visualizationDictionary.ts:154-188 | every text class comes from size, weight, colour, italic or underline |
| VisualizationDictionary.ClassesNonEmpty | shared/visualizationDictionary.ts:151-205 | no class is the empty string |
| VisualizationDictionary.OnlyTypeGivesNoClasses | shared/visualizationDictionary.ts:151-207 | a style with only a type gives no classes and the empty string |
| VisualizationDictionary.FalsyOptionsGiveNoClasses | shared/visualizationDictionary.ts:182-205 | false flags, an empty colour and indent 0 add nothing |
| VisualizationDictionary.SpacingScale | shared/visualizationDictionary.ts:191-200 | none/sm/md/lg/xl map to 0/2/4/6/8 for mt, mb and p |
| VisualizationDictionary.IndentScale | shared/visualizationDictionary.ts:203-205 | an indent n other than 0 adds ml-(4n) |
| VisualizationDictionary.BulletPointClasses | shared/visualizationDictionary.ts:117-125 | example on one entry: the bullet point renders as text-base font-normal text-gray-700 mb-2 ml-4 |
| VisualizationDictionary.ClassStringSplits | shared/visualizationDictionary.ts:207 | with a space-free colour, splitting the string on spaces gives back the classes |
| VisualizationDictionary.PartsSpaceFree | shared/visualizationDictionary.ts:154-205 | only the colour can bring a space into a class |
| SchemaVisualization.ExtractVisualizationMetadata | shared/schemaVisualization.ts:26-73 | the loop equals the recursive walk; no `properties` gives no entries |
| SchemaVisualization.PropertyMetadata | shared/schemaVisualization.ts:37-69 | one property gives its own entry if annotated, then its nested and object-item entries |
| SchemaVisualization.Emit | shared/schemaVisualization.ts:41-48 | an entry is emitted for exactly the annotated visited properties, in order |
| SchemaVisualization.ExtractIsAnnotatedNodes | shared/schemaVisualization.ts:26-73 | the walk emits the annotated properties of a pre-order traversal |
| SchemaVisualization.NodePathsExtendParent | shared/schemaVisualization.ts:38 | under a non-empty parent every path starts with `parent.` |
| SchemaVisualization.PropertyNodesUnderPath | shared/schemaVisualization.ts:36-68 | a property's subtree starts at its own path and descends by `path.` or `path[].` |
| SchemaVisualization.ExamplePaths | shared/schemaVisualization.ts:36-68 | example on one fixed schema: top-level paths are keys, nested ones `parent.key`, item ones `parent[].key` |
| SchemaVisualization.FindExact | shared/schemaVisualization.ts:83 | the first entry with the exact path, or none iff none |
| SchemaVisualization.FindPattern | shared/schemaVisualization.ts:87-91 | the first entry whose anchored pattern matches, or none iff none |
| SchemaVisualization.ExactMatchWins | shared/schemaVisualization.ts:82-84 | the first exact match wins over any pattern match (as written and corrected) |
| SchemaVisualization.PatternMatchFallback | shared/schemaVisualization.ts:86-93 | without an exact match the first matching pattern wins, and the result is null iff none matches; holds for dots as written (wildcards) and as literals |
| SchemaVisualization.PlainPathMatchesOnlyItself | shared/schemaVisualization.ts:87-91 | with literal dots a path without `[]` matches exactly itself |
| SchemaVisualization.FilledPathMatches | shared/schemaVisualization.ts:86-91 | a path matches every field path that fills each `[]` with a digit index, with dots as wildcards or as literals |
| SchemaVisualization.DotMatchesAnyCharacterAsWritten | shared/schemaVisualization.ts:88-89 | as written, stored path `a.b` claims field `a_b`; with literal dots it does not |
| SchemaVisualization.FirstRule | shared/schemaVisualization.ts:99-142 | the first rule whose words the name contains, or none iff none |
| SchemaVisualization.InferIsFirstRule | shared/schemaVisualization.ts:99-142 | inference takes the style of the first matching rule (score, time, title, description), else null |
| SchemaVisualization.InferCaseInsensitive | shared/schemaVisualization.ts:100 | inference does not depend on the name's case |
| VizAnnotations.RuleKeepsShape | add_viz_annotations.py:16-49 | the rule stage keeps the property a dict with the same type and properties, and object items keep type and properties |
| VizAnnotations.AddVizAnnotations | add_viz_annotations.py:8-57 | equals the recursive rewrite; a non-dict is returned unchanged |
| VizAnnotations.AnnotateObject | add_viz_annotations.py:13-57 | the loop over `properties.items()` equals the recursive rewrite of the dict |
| VizAnnotations.ProcessProperty | add_viz_annotations.py:15-57 | one iteration: the rule stage, then the descent into an object or object items |
| VizAnnotations.ProcessSchemaFile | add_viz_annotations.py:59-68 | the `schema` entry is rewritten when present, else the document |
| VizAnnotationProofs.ScorecardRule | add_viz_annotations.py:17-23 | `final_scorecard` gets the score style |
| VizAnnotationProofs.SectionScoreRule | add_viz_annotations.py:17-33 | the score rule precedes the section rule |
| VizAnnotationProofs.SectionRuleFor | add_viz_annotations.py:31-33 | a `section_` key matching no earlier rule gets section_headline |
| VizAnnotationProofs.SectionRule | add_viz_annotations.py:31-33 | `section_overview` gets section_headline |
| VizAnnotationProofs.UnstyledRuleFor | add_viz_annotations.py:17-49 | a key matching no pattern gets the items rule if it is action_plan, else no rule |
| VizAnnotationProofs.ActionPlanRule | add_viz_annotations.py:43-49 | action_plan gets the items rule |
| VizAnnotationProofs.MarkItemsOnlyItems | add_viz_annotations.py:43-49 | the action_plan rule writes bullet_point into object items only, not into the array |
| VizAnnotationProofs.DescentWhateverRule | add_viz_annotations.py:51-53 | an object property has its properties annotated whatever its key |
| VizAnnotationProofs.ItemsStayObjects | add_viz_annotations.py:43-57 | the rule stage keeps object items object items |
| VizAnnotationProofs.ItemsDescentWhateverRule | add_viz_annotations.py:54-57 | an array's object items have their properties annotated whatever the key |
| VizAnnotationProofs.SetVizWritten | add_viz_annotations.py:15-57 | a property whose key's rule sets a style reads that style under `x-viz` after the whole iteration, descent included |
| VizAnnotationProofs.MarkItemsWritten | add_viz_annotations.py:43-57 | an action_plan array with object items has bullet_point under its items' `x-viz` after the whole iteration |
| VizAnnotationProofs.AnnotatedPropsAt | add_viz_annotations.py:13-57 | the rewritten properties keep their number and order, and entry j is key j with its rewritten property |
| VizAnnotationProofs.SchemaVizWritten | add_viz_annotations.py:8-57 | in the rewritten schema, top-level property j keeps its name and position and reads its rule's style under `x-viz` |
| VizAnnotationProofs.RuleStrips | add_viz_annotations.py:16-49 | the rule stage writes nothing but `x-viz` |
| VizAnnotationProofs.PropertyStrips | add_viz_annotations.py:15-57 | one iteration writes nothing but `x-viz` |
| VizAnnotationProofs.AnnotatedOnlyWritesViz | add_viz_annotations.py:8-57 | the rewrite changes nothing but `x-viz` keys, at any depth |
| VizAnnotationProofs.ReannotateIdem | add_viz_annotations.py:13-57 | a rewritten dict is a fixed point of the rewrite |
| VizAnnotationProofs.PropertyIdem | add_viz_annotations.py:15-57 | re-annotating an annotated property changes nothing |
| VizAnnotationProofs.AnnotatedIdempotent | add_viz_annotations.py:8-57 | running the rewrite on its own output changes nothing |
| VizAnnotationProofs.ProcessSchemaNested | add_viz_annotations.py:65-68 | with a `schema` key exactly that entry is rewritten and every other key reads as before |
| VizAnnotationProofs.ProcessSchemaOnlyWritesViz | add_viz_annotations.py:59-68 | the file rewrite writes only `x-viz` keys |
| VizAnnotationProofs.ProcessSchemaIdempotent | add_viz_annotations.py:59-68 | rewriting a rewritten document changes nothing |

## Left out

- Network and cloud I/O are not modelled. This covers the Vertex AI client, Google Cloud Storage (signed URLs, prompt files), the BigQuery client, the MySQL/drizzle connection and the credentials. They appear as parameters (a prediction function, a reachable flag, a parse function) or as the state of a class.
- `JSON.parse`, `JSON.stringify`, the WHATWG URL parser and `decodeURIComponent` are function parameters. Their own behaviour is not modelled; `decodeURIComponent` returns None where it would throw a URIError.
- Case mapping is ASCII only (`toUpperCase`/`toLowerCase` on other letters is not modelled).
- SchemaVisualization.InferCaseInsensitive: holds for ASCII case mapping only. With JavaScript's full Unicode mapping the upper-case half can fail: `"ſcore".toUpperCase()` is `"SCORE"`, which contains `SCORE`, though `"ſcore"` does not contain `score`. The same holds for `ı` and `I`.
- PromptRouter.FindById: a lookup in the defaults object by an `Object.prototype` name such as `constructor` or `__proto__` finds an inherited member in the source (server/defaultPrompts.ts:127). The model treats such an id as absent.
- PromptRouter.PromptStore.Get: for an id that is an `Object.prototype` name and not stored, the source returns the inherited member as a default prompt (server/promptRouter.ts:80-84), while the model answers NOT_FOUND.
- VisualizationDictionary.ResolveStyle: an id that is an `Object.prototype` name, such as `constructor`, resolves in the source to the inherited member (shared/visualizationDictionary.ts:136). The model gives the fallback style.
- VertexAI.MaxRetriesOrDefault: `maxRetries` is a JavaScript number, modelled as an optional integer. A `null` is not replaced by the default and compares as 0. A `NaN` makes the loop return at once with error "" and no attempt. Neither is modelled, and neither is a fractional budget.
- VisualizationDictionary.VisualizationClasses: `indent` is modelled as an integer, so a fractional indent (which renders as `ml-` of a fraction) is not modelled.
- PromptContext.PromptCache.OnListQuery: React Query can hold data and an error at the same time (a failed refetch after a success). `ListQuery` models one of pending, data and error.
- `Object.entries` ordering of integer-like keys before string keys is not modelled: entries keep insertion order.
- Dates and clocks: `new Date()` and `toISOString()` are parameters (`now`, `createdAt`).
- Logging (`console.*`) is not modelled.
- The `getBigQueryClient` singleton is not modelled.
- The `getAnalysisResultsBySession` query in server/bigquery.ts is not modelled.
- The session, file and result CRUD helpers of server/db.ts (`createSession`, `getFilesBySession` and the others) are not modelled. The router takes their results as parameters.
- React rendering, stale closures over `loadedPrompts`, and the asynchronous interleaving of state setters are not modelled. Each setter is an assignment to a field of `PromptCache`.
- add_viz_annotations.py mutates the loaded tree in place. The model is a function from old tree to new tree, which is exact for trees from `json.load` (no sharing) and does not capture aliasing. File reading, writing, printing and the `__main__` loop are not modelled.
- The analysis router's config procedures (`getConfig`, `refreshConfig`, `updateConfig`, `getDefaultConfig`) are not modelled, and neither are `createSession`, `getSession`, `updateFileUrl` and `getSessionFiles`, which are pass-throughs to storage.
- The zod input validation of create and update is a precondition (`ValidCreate`, `ValidUpdate`) rather than an error path, because the procedure body never sees an invalid input.
- VertexAI.AnalyzeWithGemini: its contract states only that a returned text is non-empty. What it returns is stated by DecodeResponse and Substitute, of which it is the composition.
- VertexAI.RetryLoop: the prompt sequence is proved about the specification function (RunPrompts), not as a ghost output of the method.
- Db.UpsertUser: the insert call itself and the rethrow of its failure are not modelled. A Date `lastSignedIn` is always truthy, so "not set" is "not assigned".
- BigQuery.Flattened: a `__proto__` entry whose value is null re-parents flattenedData onto a null prototype; the model drops the entry, which is what the row spread sees, but does not track the prototype, which matters only for a second `__proto__` entry that a parsed object cannot have.
- Db.Database.GetDb: the catch that resets the slot to null is modelled for an unparseable URL and for a user name or password that decodeURIComponent rejects; a failure of the pool or drizzle constructor is not modelled.
- PromptRouter.PromptStore.Get: the INTERNAL_SERVER_ERROR and "fallback" branch of `get` is not modelled, because the storage layer returns null instead of throwing and the branch cannot be reached.
- Strings.ReplaceAll models the `$$`, `$&`, `` $` `` and `$'` patterns of a replacement string. Numbered groups (`$1`) do not apply to a string pattern.
- The `SchemaVisualization` regex is modelled only for the constructs a stored path can bring in: `[]` and `.` as written. Other regex metacharacters in a stored path are matched literally.

## Findings

| source | as written | input that shows it | evidently intended | confidence | as-written member | corrected member |
|---|---|---|---|---|---|---|
| shared/schemaVisualization.ts:88-89 | only `[]` is escaped when a stored path becomes a regex, so each `.` is a wildcard | stored path `a.b` with field path `a_b`: the field gets `a.b`'s style | a dot in a stored path matches only a dot | high (proved; not executed) | SchemaVisualization.DotMatchesAnyCharacterAsWritten | SchemaVisualization.PlainPathMatchesOnlyItself |

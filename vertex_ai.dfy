/**
 * The bounded retry validator of server/vertexAI.ts: placeholder
 * substitution, decoding of the Vertex AI prediction, extraction of JSON
 * from a fenced block, the shallow top-level key check, and the attempt
 * loop that appends diagnostic feedback to the prompt between attempts.
 *
 * The remote model call, JSON.parse and JSON.stringify are parameters.
 */
module VertexAI {
  import opened Wrappers
  import opened Strings
  import opened Json

  // ---------------------------------------------------------------------------
  // Placeholder substitution
  // ---------------------------------------------------------------------------

  function Placeholder(key: string): (r: string)
    ensures |r| == |key| + 2 && r[0] == '{' && r[|r| - 1] == '}'
  {
    "{" + key + "}"
  }

  /**
   * The prompt after replacing, key by key in context order, every `{key}`
   * with its value using String.prototype.replaceAll.
   */
  function Substitute(prompt: string, ctx: seq<(string, string)>): string
    decreases |ctx|
  {
    if ctx == [] then prompt
    else Substitute(ReplaceAll(prompt, Placeholder(ctx[0].0), ctx[0].1), ctx[1..])
  }

  /** The substitution loop of analyzeWithGemini, reassigning `prompt` once per context entry. */
  method SubstitutePlaceholders(systemPrompt: string, ctx: seq<(string, string)>) returns (prompt: string)
    ensures prompt == Substitute(systemPrompt, ctx)
    ensures (forall k :: 0 <= k < |ctx| ==> !Contains(systemPrompt, Placeholder(ctx[k].0)))
            ==> prompt == systemPrompt
  {
    prompt := systemPrompt;
    for i := 0 to |ctx|
      invariant Substitute(prompt, ctx[i..]) == Substitute(systemPrompt, ctx)
    {
      assert ctx[i..][1..] == ctx[i + 1..];
      prompt := ReplaceAll(prompt, Placeholder(ctx[i].0), ctx[i].1);
    }
    assert ctx[|ctx|..] == [];
    if forall k :: 0 <= k < |ctx| ==> !Contains(systemPrompt, Placeholder(ctx[k].0)) {
      SubstituteNoPlaceholder(systemPrompt, ctx);
    }
  }

  /** A template in which no context key's placeholder occurs comes back verbatim. */
  lemma {:induction false} SubstituteNoPlaceholder(prompt: string, ctx: seq<(string, string)>)
    requires forall k :: 0 <= k < |ctx| ==> !Contains(prompt, Placeholder(ctx[k].0))
    ensures Substitute(prompt, ctx) == prompt
    decreases |ctx|
  {
    if ctx != [] {
      ReplaceAllAbsent(prompt, Placeholder(ctx[0].0), ctx[0].1);
      SubstituteNoPlaceholder(prompt, ctx[1..]);
    }
  }

  /**
   * One substitution step on a template of the form `a{key}b` whose first
   * occurrence of `{key}` is the one after `a`: that occurrence becomes the
   * value and the rest is substituted in the same way.
   */
  lemma ReplaceFirstPlaceholder(a: string, key: string, b: string, v: string)
    requires '$' !in v
    requires forall j :: 0 <= j < |a| ==> !OccursAt(a + Placeholder(key) + b, Placeholder(key), j)
    ensures ReplaceAll(a + Placeholder(key) + b, Placeholder(key), v)
            == a + v + ReplaceLiteral(b, Placeholder(key), v)
  {
    ReplaceAllIsLiteral(a + Placeholder(key) + b, Placeholder(key), v);
    ReplaceLiteralFirst(a, Placeholder(key), b, v);
  }

  /** A string with neither `{` nor `}`. */
  predicate BraceFree(s: string)
  {
    forall i :: 0 <= i < |s| ==> s[i] != '{' && s[i] != '}'
  }

  /**
   * The placeholder of a brace-free key can overlap the placeholder of
   * another brace-free name only where it occurs entirely before or after it.
   */
  lemma PlaceholderNotOverlapped(a: string, m: string, b: string, key: string)
    requires BraceFree(m) && BraceFree(key) && key != m
    ensures NoneOverlaps(a, Placeholder(m), b, Placeholder(key))
  {
    var s := a + Placeholder(m) + b;
    var pk := Placeholder(key);
    var pm := Placeholder(m);
    forall i | 0 <= i < |a| + |pm| && |a| < i + |pk|
      ensures !OccursAt(s, pk, i)
    {
      if i + |pk| <= |s| {
        // An offset at which the window starting at i differs from pk.
        var d: nat;
        if i < |a| {
          // pk would have to hold the opening brace of m's placeholder inside.
          d := |a| - i;
          assert s[i + d] == '{';
          assert pk[d] != '{' by {
            if d < |pk| - 1 { assert pk[d] == key[d - 1]; }
          }
        } else if i == |a| {
          if |key| < |m| {
            d := |key| + 1;
            assert pk[d] == '}' && s[i + d] == pm[d] == m[|key|];
          } else if |key| > |m| {
            d := |m| + 1;
            assert pk[d] == key[|m|] && s[i + d] == pm[d] == '}';
          } else {
            // Two distinct strings of one length differ at some index.
            assert exists t :: 0 <= t < |key| && key[t] != m[t];
            var t :| 0 <= t < |key| && key[t] != m[t];
            d := t + 1;
            assert pk[d] == key[t] && s[i + d] == pm[d] == m[t];
          }
        } else {
          // The window starts inside m's placeholder, past its opening brace.
          d := 0;
          assert s[i] == pm[i - |a|] != '{';
        }
        assert d < |pk| && s[i..i + |pk|][d] != pk[d];
      }
    }
  }

  /**
   * A placeholder whose name is not a key stays verbatim wherever it sits
   * among known placeholders: the text on each side is substituted on its
   * own.  Keys and the name are brace-free and no value holds a `$` pattern.
   */
  lemma {:induction false} UnknownPlaceholderKept(a: string, m: string, b: string, ctx: seq<(string, string)>)
    requires BraceFree(m)
    requires forall k :: 0 <= k < |ctx| ==> BraceFree(ctx[k].0) && ctx[k].0 != m && '$' !in ctx[k].1
    ensures Substitute(a + Placeholder(m) + b, ctx) == Substitute(a, ctx) + Placeholder(m) + Substitute(b, ctx)
    decreases |ctx|
  {
    if ctx != [] {
      var pk := Placeholder(ctx[0].0);
      var v := ctx[0].1;
      PlaceholderNotOverlapped(a, m, b, ctx[0].0);
      ReplaceAllIsLiteral(a + Placeholder(m) + b, pk, v);
      ReplaceAllIsLiteral(a, pk, v);
      ReplaceAllIsLiteral(b, pk, v);
      ReplaceLiteralAround(a, Placeholder(m), b, pk, v);
      UnknownPlaceholderKept(ReplaceAll(a, pk, v), m, ReplaceAll(b, pk, v), ctx[1..]);
    }
  }

  /**
   * Keys are applied in order, so a later key is also substituted inside the
   * value an earlier key inserted: `{a}` with a = `{b}`, b = `x` gives `x`.
   */
  lemma LaterKeySubstitutedInsideEarlierValue()
    ensures Substitute("{a}", [("a", "{b}"), ("b", "x")]) == "x"
  {
    ReplaceFirstPlaceholder([], "a", [], "{b}");
    assert [] + Placeholder("a") + [] == "{a}";
    assert ReplaceLiteral([], Placeholder("a"), "{b}") == [];
    ReplaceFirstPlaceholder([], "b", [], "x");
    assert [] + Placeholder("b") + [] == "{b}";
    assert ReplaceLiteral([], Placeholder("b"), "x") == [];
    assert [("a", "{b}"), ("b", "x")][1..] == [("b", "x")];
  }

  // ---------------------------------------------------------------------------
  // Decoding the Vertex AI prediction (analyzeWithGemini)
  // ---------------------------------------------------------------------------

  /** google.protobuf.Value as the prediction client returns it. */
  datatype PValue =
    | PNull
    | PBool(b: bool)
    | PNumber(n: int)
    | PString(s: string)
    | PList(values: seq<PValue>)
    | PStruct(fields: seq<(string, PValue)>)

  function FieldOf(fields: seq<(string, PValue)>, name: string): Option<PValue>
  {
    if fields == [] then None
    else if fields[0].0 == name then Some(fields[0].1)
    else FieldOf(fields[1..], name)
  }

  /** `v?.structValue?.fields?.[name]`. */
  function StructField(v: Option<PValue>, name: string): Option<PValue>
  {
    if v.Some? && v.value.PStruct? then FieldOf(v.value.fields, name) else None
  }

  /** `v?.listValue?.values`. */
  function ListValues(v: Option<PValue>): Option<seq<PValue>>
  {
    if v.Some? && v.value.PList? then Some(v.value.values) else None
  }

  /** `v?.stringValue`. */
  function StringValue(v: Option<PValue>): Option<string>
  {
    if v.Some? && v.value.PString? then Some(v.value.s) else None
  }

  function FirstOf(xs: Option<seq<PValue>>): Option<PValue>
  {
    if xs.Some? && |xs.value| > 0 then Some(xs.value[0]) else None
  }

  const NoPredictions := "No predictions returned from Vertex AI"
  const InvalidStructure := "Invalid response structure from Vertex AI"
  const NoContentParts := "No content parts in Vertex AI response"
  const NoTextContent := "No text content in Vertex AI response"

  /**
   * The text of the first part of the first candidate of the first
   * prediction, or the message of the Error the source throws.
   */
  function DecodeResponse(predictions: Option<seq<PValue>>): (r: Result<string, string>)
    ensures r.Ok? ==> r.value != []
    ensures r.Ok? ==> predictions.Some? && |predictions.value| > 0
    ensures r.Err? ==> r.error in {NoPredictions, InvalidStructure, NoContentParts, NoTextContent}
    ensures (predictions.None? || predictions.value == []) <==> r == Err(NoPredictions)
  {
    if predictions.None? || |predictions.value| == 0 then Err(NoPredictions)
    else
      var candidate := FirstOf(ListValues(StructField(Some(predictions.value[0]), "candidates")));
      if candidate.None? then Err(InvalidStructure)
      else
        var content := StructField(candidate, "content");
        var parts := ListValues(StructField(content, "parts"));
        if parts.None? || |parts.value| == 0 then Err(NoContentParts)
        else
          var text := StringValue(StructField(Some(parts.value[0]), "text"));
          if text.None? || text.value == [] then Err(NoTextContent)
          else Ok(text.value)
  }

  /** `v.structValue.fields[name]`: the field of a struct value, if it has one. */
  function Field(v: PValue, name: string): Option<PValue>
  {
    if v.PStruct? then FieldOf(v.fields, name) else None
  }

  /** A list value with at least one element. */
  predicate NonEmptyList(v: Option<PValue>)
  {
    v.Some? && v.value.PList? && v.value.values != []
  }

  /**
   * Which piece of the first prediction decides the outcome: no candidate
   * gives InvalidStructure, no content part NoContentParts, a first part
   * without non-empty text NoTextContent, and otherwise that text.
   */
  lemma DecodeOutcomes(p: PValue, rest: seq<PValue>)
    ensures var r := DecodeResponse(Some([p] + rest));
      var candidates := Field(p, "candidates");
      && (r == Err(InvalidStructure) <==> !NonEmptyList(candidates))
      && (NonEmptyList(candidates) ==>
           var content := Field(candidates.value.values[0], "content");
           var parts := if content.Some? then Field(content.value, "parts") else None;
           && (r == Err(NoContentParts) <==> !NonEmptyList(parts))
           && (NonEmptyList(parts) ==>
                var text := Field(parts.value.values[0], "text");
                && (r == Err(NoTextContent) <==> !(text.Some? && text.value.PString? && text.value.s != []))
                && (r.Ok? ==> r == Ok(text.value.s))))
  {
  }

  /**
   * Decoding finds the text placed at candidates[0].content.parts[0].text of
   * the first prediction, whatever other fields, candidates, parts and
   * predictions there are.
   */
  lemma DecodeFindsText(
    predictionFields: seq<(string, PValue)>, candidates: seq<PValue>, candidateFields: seq<(string, PValue)>,
    contentFields: seq<(string, PValue)>, parts: seq<PValue>, partFields: seq<(string, PValue)>,
    rest: seq<PValue>, text: string)
    requires FieldOf(predictionFields, "candidates") == Some(PList(candidates))
    requires candidates != [] && candidates[0] == PStruct(candidateFields)
    requires FieldOf(candidateFields, "content") == Some(PStruct(contentFields))
    requires FieldOf(contentFields, "parts") == Some(PList(parts))
    requires parts != [] && parts[0] == PStruct(partFields)
    requires FieldOf(partFields, "text") == Some(PString(text))
    ensures DecodeResponse(Some([PStruct(predictionFields)] + rest))
            == if text == [] then Err(NoTextContent) else Ok(text)
  {
    assert ([PStruct(predictionFields)] + rest)[0] == PStruct(predictionFields);
  }

  /** The generator's input: the substituted prompt plus the file reference. */
  datatype GenerationRequest = GenerationRequest(fileUrl: string, mimeType: string, prompt: string)

  /**
   * analyzeWithGemini: substitute, call the model (attempt number `attempt`
   * stands for the model's freedom to answer differently each time), decode.
   * An Err carries the message of the Error thrown.
   */
  function AnalyzeWithGemini(
    predict: (GenerationRequest, nat) -> Result<Option<seq<PValue>>, string>,
    fileUrl: string, mimeType: string, systemPrompt: string,
    ctx: seq<(string, string)>, attempt: nat): (r: Result<string, string>)
    ensures r.Ok? ==> r.value != []
  {
    var request := GenerationRequest(fileUrl, mimeType, Substitute(systemPrompt, ctx));
    match predict(request, attempt)
    case Err(e) => Err(e)
    case Ok(predictions) => DecodeResponse(predictions)
  }

  // ---------------------------------------------------------------------------
  // JSON extraction from the raw model text
  // ---------------------------------------------------------------------------

  const JsonFence := "```json"
  const Fence := "```"

  /**
   * The text between the first `open` marker and the first ``` after it,
   * when both exist: the only start at which the lazy fence patterns of
   * lines 142-143 can match.
   */
  function FencedInterior(text: string, open: string): (r: Option<string>)
    ensures r.Some? ==> Contains(text, open)
  {
    match FindFrom(text, open, 0)
    case None => None
    case Some(p) =>
      match FindFrom(text, Fence, p + |open|)
      case None => None
      case Some(q) => Some(text[p + |open|..q])
  }

  /**
   * The string handed to JSON.parse: the interior of the first ```json
   * fence, else of the first plain ``` fence, else the whole response;
   * trimmed.  (The `\s*` around the capture group removes exactly the
   * whitespace that trim() removes.)
   */
  function JsonCandidate(text: string): string
  {
    match FencedInterior(text, JsonFence)
    case Some(body) => Trim(Trim(body))
    case None =>
      match FencedInterior(text, Fence)
      case Some(body) => Trim(Trim(body))
      case None => Trim(text)
  }

  /** Text without any backtick is parsed as a whole, trimmed. */
  lemma UnfencedTextIsParsedWhole(text: string)
    requires '`' !in text
    ensures JsonCandidate(text) == Trim(text)
  {
    forall j: nat ensures !OccursAt(text, Fence, j) && !OccursAt(text, JsonFence, j) {
      NoOccurrenceOfTick(text, Fence, j);
      NoOccurrenceOfTick(text, JsonFence, j);
    }
    ContainsIff(text, Fence);
    ContainsIff(text, JsonFence);
  }

  /** A pattern starting with a backtick does not occur in backtick-free text. */
  lemma NoOccurrenceOfTick(s: string, pat: string, j: nat)
    requires '`' !in s && |pat| > 0 && pat[0] == '`'
    ensures !OccursAt(s, pat, j)
  {
    if j + |pat| <= |s| {
      assert s[j..j + |pat|][0] == s[j];
      assert s[j] in s;
    }
  }

  /**
   * A ```json fence is found behind any backtick-free prefix, and its
   * backtick-free body is what gets parsed; the suffix is ignored.
   */
  lemma JsonFenceExtracted(prefix: string, body: string, suffix: string)
    requires '`' !in prefix && '`' !in body
    ensures JsonCandidate(prefix + JsonFence + body + Fence + suffix) == Trim(body)
  {
    var text := prefix + JsonFence + body + Fence + suffix;
    var start := |prefix| + |JsonFence|;
    var q := start + |body|;
    OpeningFenceFound(prefix, JsonFence, body, suffix);
    ClosingFenceFound(prefix, JsonFence, body, suffix);
    FencedSlice(prefix, JsonFence, body, Fence, suffix);
    assert FencedInterior(text, JsonFence) == Some(body);
    TrimTwice(body);
  }

  /**
   * A ```json fence wins over any plain fence before it: only a ```json
   * starting inside the prefix could be found first.
   */
  lemma JsonFencePrecedes(prefix: string, body: string, suffix: string)
    requires forall j :: 0 <= j < |prefix| ==> !OccursAt(prefix + JsonFence + body + Fence + suffix, JsonFence, j)
    requires '`' !in body
    ensures JsonCandidate(prefix + JsonFence + body + Fence + suffix) == Trim(body)
  {
    var text := prefix + JsonFence + body + Fence + suffix;
    var start := |prefix| + |JsonFence|;
    assert text[|prefix|..start] == JsonFence;
    assert OccursAt(text, JsonFence, |prefix|);
    FindFromAt(text, JsonFence, 0, |prefix|);
    ClosingFenceFound(prefix, JsonFence, body, suffix);
    FencedSlice(prefix, JsonFence, body, Fence, suffix);
    assert FencedInterior(text, JsonFence) == Some(body);
    TrimTwice(body);
  }

  /** Without any ```json, the first plain fence pair is parsed. */
  lemma PlainFenceFallback(prefix: string, body: string, suffix: string)
    requires !Contains(prefix + Fence + body + Fence + suffix, JsonFence)
    requires '`' !in prefix && '`' !in body
    ensures JsonCandidate(prefix + Fence + body + Fence + suffix) == Trim(body)
  {
    var text := prefix + Fence + body + Fence + suffix;
    OpeningFenceFound(prefix, Fence, body, suffix);
    ClosingFenceFound(prefix, Fence, body, suffix);
    FencedSlice(prefix, Fence, body, Fence, suffix);
    assert FencedInterior(text, Fence) == Some(body);
    TrimTwice(body);
  }

  /** The first opening fence (```json or ```) of the text is the one right after the backtick-free prefix. */
  lemma OpeningFenceFound(prefix: string, open: string, body: string, suffix: string)
    requires '`' !in prefix && (open == JsonFence || open == Fence)
    ensures FindFrom(prefix + open + body + Fence + suffix, open, 0) == Some(|prefix|)
  {
    var text := prefix + open + body + Fence + suffix;
    var p := |prefix|;
    assert text[p..p + |open|] == open;
    forall j | 0 <= j < p ensures !OccursAt(text, open, j) {
      assert text[j] == prefix[j];
      assert prefix[j] in prefix;
      if j + |open| <= |text| {
        assert text[j..j + |open|][0] == text[j];
      }
    }
    FindFromAt(text, open, 0, p);
  }

  /** After the opening fence, the first ``` is the one right after the backtick-free body. */
  /** The body of a fenced text sits right after the prefix and the opening fence. */
  lemma FencedSlice(prefix: string, open: string, body: string, close: string, suffix: string)
    ensures var start := |prefix| + |open|;
      (prefix + open + body + close + suffix)[start..start + |body|] == body
  {
    var text := prefix + open + body + close + suffix;
    var start := |prefix| + |open|;
    forall i | 0 <= i < |body| ensures text[start + i] == body[i] {
      assert (prefix + open + body)[start + i] == body[i];
    }
  }

  /** The first ``` after the opening fence is the one right after the backtick-free body. */
  lemma ClosingFenceFound(prefix: string, open: string, body: string, suffix: string)
    requires '`' !in body
    ensures var start := |prefix| + |open|;
      FindFrom(prefix + open + body + Fence + suffix, Fence, start) == Some(start + |body|)
  {
    var text := prefix + open + body + Fence + suffix;
    var start := |prefix| + |open|;
    var q := start + |body|;
    assert text[q..q + |Fence|] == Fence;
    forall j | start <= j < q ensures !OccursAt(text, Fence, j) {
      assert text[j] == body[j - start];
      assert body[j - start] in body;
      if j + |Fence| <= |text| {
        assert text[j..j + |Fence|][0] == text[j];
      }
    }
    FindFromAt(text, Fence, start, q);
  }

  // ---------------------------------------------------------------------------
  // The shallow key check: `schemaKeys.filter(key => !(key in parsed))`
  // ---------------------------------------------------------------------------

  /** `key` names a property every array inherits from Array.prototype (ES2023). */
  predicate IsArrayPrototypeName(key: string)
  {
    key == "length" || key == "at" || key == "concat" || key == "copyWithin" || key == "entries"
    || key == "every" || key == "fill" || key == "filter" || key == "find" || key == "findIndex"
    || key == "findLast" || key == "findLastIndex" || key == "flat" || key == "flatMap" || key == "forEach"
    || key == "includes" || key == "indexOf" || key == "join" || key == "keys" || key == "lastIndexOf"
    || key == "map" || key == "pop" || key == "push" || key == "reduce" || key == "reduceRight"
    || key == "reverse" || key == "shift" || key == "slice" || key == "some" || key == "sort"
    || key == "splice" || key == "toReversed" || key == "toSorted" || key == "toSpliced" || key == "unshift"
    || key == "values" || key == "with"
  }

  /** `key` is the canonical decimal form of an index below `n`. */
  predicate IsIndexBelow(key: string, n: nat)
  {
    && |key| > 0
    && (forall i :: 0 <= i < |key| ==> IsDigit(key[i]))
    && (key[0] == '0' ==> |key| == 1)
    && DigitsValue(key) < n
  }

  /** `key in v` for an object or an array value. */
  predicate HasProperty(v: Json, key: string)
    requires v.JObj? || v.JArr?
  {
    || IsObjectPrototypeName(key)
    || (v.JObj? && key in Keys(v.entries))
    || (v.JArr? && (IsArrayPrototypeName(key) || IsIndexBelow(key, |v.items|)))
  }

  /** String(v) for a primitive, as it appears in V8's TypeError message. */
  function Render(v: Json): string
  {
    match v
    case JNull => "null"
    case JBool(b) => if b then "true" else "false"
    case JNum(n) => IntToString(n)
    case JStr(s) => s
    case _ => "[object]"
  }

  function InOperatorError(key: string, v: Json): string
  {
    "Cannot use 'in' operator to search for '" + key + "' in " + Render(v)
  }

  /** The schema keys absent from `v`, in schema-key order. */
  function Missing(keys: seq<string>, v: Json): (r: seq<string>)
    requires v.JObj? || v.JArr?
    ensures forall k :: k in r <==> k in keys && !HasProperty(v, k)
    ensures |r| <= |keys|
  {
    if keys == [] then []
    else if HasProperty(v, keys[0]) then Missing(keys[1..], v)
    else [keys[0]] + Missing(keys[1..], v)
  }

  /**
   * The missing keys keep schema-key order: the filter distributes over
   * concatenation, and a single key is kept exactly when it is absent.
   */
  lemma {:induction false} MissingInKeyOrder(a: seq<string>, b: seq<string>, k: string, v: Json)
    requires v.JObj? || v.JArr?
    ensures Missing(a + b, v) == Missing(a, v) + Missing(b, v)
    ensures Missing([k], v) == if HasProperty(v, k) then [] else [k]
  {
    if a == [] {
      assert a + b == b;
    } else {
      assert (a + b)[0] == a[0] && (a + b)[1..] == a[1..] + b;
      MissingInKeyOrder(a[1..], b, k, v);
    }
  }

  /**
   * The filter of lines 159-160: the missing keys, or the TypeError that the
   * `in` operator throws on a primitive as soon as there is a key to test.
   */
  function CheckKeys(keys: seq<string>, v: Json): (r: Result<seq<string>, string>)
    ensures keys == [] ==> r == Ok([])
    ensures r.Err? <==> keys != [] && !(v.JObj? || v.JArr?)
    ensures r.Ok? && keys != [] ==> forall k :: k in r.value <==> k in keys && !HasProperty(v, k)
  {
    if keys == [] then Ok([])
    else if !(v.JObj? || v.JArr?) then Err(InOperatorError(keys[0], v))
    else Ok(Missing(keys, v))
  }

  /**
   * With a JSON-Schema-shaped expected schema the checked keys are the
   * schema's own top-level keys, so a result carrying every field the
   * schema's `required` list names is still rejected for lacking `type`.
   */
  lemma RequiredListNotUsed(schema: seq<(string, Json)>, parsed: seq<(string, Json)>)
    requires Keys(schema) == ["type", "properties", "required", "additionalProperties"]
    requires "type" !in Keys(parsed)
    ensures CheckKeys(Keys(schema), JObj(parsed)).Ok?
    ensures "type" in CheckKeys(Keys(schema), JObj(parsed)).value
  {
    assert "type" in Keys(schema);
  }

  // ---------------------------------------------------------------------------
  // One attempt and the feedback it produces
  // ---------------------------------------------------------------------------

  /** How one attempt ended. */
  datatype Attempt =
    | Passed(value: Json)
    | CallFailed(message: string)
    | ParseFailed(parseError: string, response: string)
    | KeysMissing(missing: seq<string>, value: Json)

  /**
   * The body of one loop iteration: the call (which may throw), the parse
   * (whose failure is caught by the inner catch) and the key check (whose
   * TypeError on a primitive reaches the outer catch as a call error).
   */
  function EvalAttempt(call: Result<string, string>, parse: string -> Result<Json, string>, keys: seq<string>): (a: Attempt)
    ensures a.Passed? ==> CheckKeys(keys, a.value) == Ok([])
    ensures a.KeysMissing? ==> a.missing != [] && CheckKeys(keys, a.value) == Ok(a.missing)
    ensures call.Err? ==> a == CallFailed(call.error)
  {
    match call
    case Err(e) => CallFailed(e)
    case Ok(text) =>
      match parse(JsonCandidate(text))
      case Err(pe) => ParseFailed(pe, text)
      case Ok(v) =>
        match CheckKeys(keys, v)
        case Err(te) => CallFailed(te)
        case Ok(missing) => if missing == [] then Passed(v) else KeysMissing(missing, v)
  }

  /** The value `lastError` takes after a failed attempt. */
  function LastError(a: Attempt): string
    requires !a.Passed?
  {
    match a
    case CallFailed(m) => m
    case ParseFailed(pe, _) => ParseErrorPrefix + pe
    case KeysMissing(missing, _) => MissingFieldsPrefix + Join(missing, ", ")
  }

  const FailedHeader := "\n\nPREVIOUS ATTEMPT FAILED: "
  const SchemaHint := "\nPlease ensure your response is valid JSON matching the schema. Previous response was: "
  const RetryHint := "\nPlease try again."
  const RequiredFieldsLabel := "\nRequired fields: "
  const PreviousResponseLabel := "\nPrevious response: "
  const ParseErrorPrefix := "JSON parse error: "
  const MissingFieldsPrefix := "Missing required fields: "

  /** The kind-specific text that follows the diagnostic in a feedback block. */
  function FeedbackTail(a: Attempt, keys: seq<string>, stringify: Json -> string): string
    requires !a.Passed?
  {
    match a
    case CallFailed(_) => RetryHint
    case ParseFailed(_, response) =>
      SchemaHint + response
    case KeysMissing(_, v) =>
      RequiredFieldsLabel + Join(keys, ", ") + PreviousResponseLabel + stringify(v)
  }

  /** The block appended to the prompt before the next attempt. */
  function Feedback(a: Attempt, keys: seq<string>, stringify: Json -> string): (r: string)
    requires !a.Passed?
    ensures FailedHeader + LastError(a) <= r
  {
    FailedHeader + LastError(a) + FeedbackTail(a, keys, stringify)
  }

  /** The feedback block of each kind of failure, spelled out. */
  lemma FeedbackByKind(a: Attempt, keys: seq<string>, stringify: Json -> string)
    requires !a.Passed?
    ensures a.CallFailed? ==> Feedback(a, keys, stringify) == FailedHeader + a.message + RetryHint
    ensures a.ParseFailed? ==>
      Feedback(a, keys, stringify) == FailedHeader + ParseErrorPrefix + a.parseError + SchemaHint + a.response
    ensures a.KeysMissing? ==>
      Feedback(a, keys, stringify) == FailedHeader + MissingFieldsPrefix + Join(a.missing, ", ")
        + RequiredFieldsLabel + Join(keys, ", ") + PreviousResponseLabel + stringify(a.value)
  {
    match a
    case CallFailed(m) =>
    case ParseFailed(pe, response) =>
      Regroup(FailedHeader, ParseErrorPrefix, pe, SchemaHint, response);
    case KeysMissing(missing, v) =>
      RegroupLong(FailedHeader, MissingFieldsPrefix, Join(missing, ", "),
                  RequiredFieldsLabel, Join(keys, ", "), PreviousResponseLabel, stringify(v));
  }

  /** The value `lastError` takes after each kind of failure, spelled out. */
  lemma LastErrorByKind(a: Attempt)
    requires !a.Passed?
    ensures a.CallFailed? ==> LastError(a) == a.message
    ensures a.ParseFailed? ==> LastError(a) == ParseErrorPrefix + a.parseError
    ensures a.KeysMissing? ==> LastError(a) == MissingFieldsPrefix + Join(a.missing, ", ")
  {
  }

  lemma Regroup(h: string, p: string, m: string, t: string, u: string)
    ensures h + (p + m) + (t + u) == h + p + m + t + u
  {
  }

  lemma RegroupLong(h: string, p: string, m: string, a: string, b: string, c: string, d: string)
    ensures h + (p + m) + (a + b + c + d) == h + p + m + a + b + c + d
  {
  }

  // ---------------------------------------------------------------------------
  // The attempt loop
  // ---------------------------------------------------------------------------

  /** `{ success, result?, error?, retryCount }`. */
  datatype AnalysisOutcome = AnalysisOutcome(success: bool, result: Option<Json>, error: Option<string>, retryCount: nat)

  /**
   * Everything a run holds fixed: how one attempt turns out for a given
   * prompt template and retry count, the expected keys, the serializer used
   * in feedback, and the retry budget.
   */
  datatype Env = Env(
    attempt: (string, nat) -> Attempt,
    keys: seq<string>,
    stringify: Json -> string,
    maxRetries: int)

  /** The attempt function of analyzeWithRetry: one Gemini call, then parse and key check. */
  function GeminiAttempt(
    predict: (GenerationRequest, nat) -> Result<Option<seq<PValue>>, string>,
    parse: string -> Result<Json, string>,
    fileUrl: string, mimeType: string,
    ctx: seq<(string, string)>,
    keys: seq<string>): (string, nat) -> Attempt
  {
    (prompt: string, retryCount: nat) =>
      EvalAttempt(AnalyzeWithGemini(predict, fileUrl, mimeType, prompt, ctx, retryCount), parse, keys)
  }

  /** The outcome, and the prompt template in force at each call, in call order. */
  datatype Trace = Trace(outcome: AnalysisOutcome, prompts: seq<string>)

  function Attempted(env: Env, prompt: string, retryCount: nat): Attempt
  {
    env.attempt(prompt, retryCount)
  }

  /** The run from the state (prompt, retryCount, lastError) at the loop head. */
  function Run(env: Env, prompt: string, retryCount: nat, lastError: string): Trace
    decreases env.maxRetries + 1 - retryCount
  {
    if retryCount > env.maxRetries then
      Trace(AnalysisOutcome(false, None, Some(lastError), retryCount), [])
    else
      var a := Attempted(env, prompt, retryCount);
      if a.Passed? then
        Trace(AnalysisOutcome(true, Some(a.value), None, retryCount), [prompt])
      else
        var rest := Run(env, NextPrompt(env, prompt, retryCount, a), retryCount + 1, LastError(a));
        Trace(rest.outcome, [prompt] + rest.prompts)
  }

  function Max0(n: int): nat { if n < 0 then 0 else n }

  /** The prompt in force for the call after a failed attempt `a`. */
  function NextPrompt(env: Env, prompt: string, retryCount: nat, a: Attempt): string
    requires !a.Passed?
  {
    if retryCount + 1 <= env.maxRetries then prompt + Feedback(a, env.keys, env.stringify) else prompt
  }

  /**
   * What a run from a loop-head state promises about its outcome: exactly
   * one of result and error, success only within the budget and only with
   * the value of a passing attempt made with the last listed prompt,
   * exhaustion at retryCount = maxRetries + 1, and one call per listed prompt.
   */
  lemma {:induction false} RunOutcome(env: Env, prompt: string, retryCount: nat, lastError: string)
    ensures var t := Run(env, prompt, retryCount, lastError);
      && (t.outcome.success <==> t.outcome.result.Some?)
      && (t.outcome.success <==> t.outcome.error.None?)
      && (t.outcome.success ==> retryCount <= t.outcome.retryCount <= env.maxRetries)
      && (!t.outcome.success ==> t.outcome.retryCount == if retryCount > env.maxRetries then retryCount else env.maxRetries + 1)
      && |t.prompts| == t.outcome.retryCount - retryCount + (if t.outcome.success then 1 else 0)
    decreases env.maxRetries + 1 - retryCount
  {
    if retryCount <= env.maxRetries {
      var a := Attempted(env, prompt, retryCount);
      if !a.Passed? {
        var next := NextPrompt(env, prompt, retryCount, a);
        var rest := Run(env, next, retryCount + 1, LastError(a));
        var t := Run(env, prompt, retryCount, lastError);
        RunStep(env, prompt, retryCount, lastError);
        RunOutcome(env, next, retryCount + 1, LastError(a));
      }
    }
  }

  /** A successful run ends with a passing attempt, made with its last prompt, whose value is the result. */
  lemma {:induction false} RunSuccessPassed(env: Env, prompt: string, retryCount: nat, lastError: string)
    ensures var t := Run(env, prompt, retryCount, lastError);
      t.outcome.success ==>
        t.prompts != [] && t.outcome.result.Some?
        && Attempted(env, t.prompts[|t.prompts| - 1], t.outcome.retryCount) == Passed(t.outcome.result.value)
    decreases env.maxRetries + 1 - retryCount
  {
    if retryCount <= env.maxRetries {
      var a := Attempted(env, prompt, retryCount);
      if !a.Passed? {
        var next := NextPrompt(env, prompt, retryCount, a);
        var rest := Run(env, next, retryCount + 1, LastError(a));
        var t := Run(env, prompt, retryCount, lastError);
        RunStep(env, prompt, retryCount, lastError);
        RunSuccessPassed(env, next, retryCount + 1, LastError(a));
        if rest.outcome.success {
          assert t.prompts[|t.prompts| - 1] == rest.prompts[|rest.prompts| - 1];
        }
      }
    }
  }

  /** The attempt made with the k-th prompt of a run started at `start` failed. */
  predicate FailedAt(env: Env, prompts: seq<string>, start: nat, k: nat)
    requires k < |prompts|
  {
    !Attempted(env, prompts[k], start + k).Passed?
  }

  /**
   * The k-th prompt of a run started at `start` is its predecessor followed
   * by the feedback block of the failed attempt made with that predecessor.
   */
  predicate GrewByFeedback(env: Env, prompts: seq<string>, start: nat, k: nat)
    requires 0 < k < |prompts|
  {
    Grew(env, prompts[k - 1], prompts[k], start + k - 1)
  }

  /** The attempt with `prev` at retry `n` failed, and `next` is `prev` followed by its feedback block. */
  predicate Grew(env: Env, prev: string, next: string, n: nat)
  {
    var failed := Attempted(env, prev, n);
    !failed.Passed? && next == prev + Feedback(failed, env.keys, env.stringify)
  }

  /**
   * The error of an exhausted run: the lastError of the failed attempt made
   * at the last retry, or the initial lastError when no attempt was made.
   */
  lemma {:induction false} RunExhaustionError(env: Env, prompt: string, retryCount: nat, lastError: string)
    ensures var t := Run(env, prompt, retryCount, lastError);
      && (!t.outcome.success && retryCount > env.maxRetries ==> t.outcome.error == Some(lastError))
      && (!t.outcome.success && retryCount <= env.maxRetries ==>
           t.prompts != [] &&
           var last := Attempted(env, t.prompts[|t.prompts| - 1], env.maxRetries);
           !last.Passed? && t.outcome.error == Some(LastError(last)))
    decreases env.maxRetries + 1 - retryCount
  {
    if retryCount <= env.maxRetries {
      var a := Attempted(env, prompt, retryCount);
      if !a.Passed? {
        var next := NextPrompt(env, prompt, retryCount, a);
        var rest := Run(env, next, retryCount + 1, LastError(a));
        var t := Run(env, prompt, retryCount, lastError);
        RunStep(env, prompt, retryCount, lastError);
        RunExhaustionError(env, next, retryCount + 1, LastError(a));
        if !rest.outcome.success {
          if retryCount + 1 > env.maxRetries {
            assert rest.prompts == [] && rest.outcome.error == Some(LastError(a));
            assert t.prompts == [prompt] && retryCount == env.maxRetries;
          } else {
            assert rest.prompts != [];
            assert t.prompts[|t.prompts| - 1] == rest.prompts[|rest.prompts| - 1];
          }
        }
      }
    }
  }

  /**
   * Every attempt of a run before its last one failed (the last one failed
   * too when the run is exhausted: see RunExhaustionError).
   */
  lemma {:induction false} RunFailures(env: Env, prompt: string, retryCount: nat, lastError: string, k: nat)
    requires k + 1 < |Run(env, prompt, retryCount, lastError).prompts|
    ensures FailedAt(env, Run(env, prompt, retryCount, lastError).prompts, retryCount, k)
    decreases k
  {
    RunContinues(env, prompt, retryCount, lastError);
    var a := Attempted(env, prompt, retryCount);
    var next := NextPrompt(env, prompt, retryCount, a);
    var rest := Run(env, next, retryCount + 1, LastError(a));
    var ps := Run(env, prompt, retryCount, lastError).prompts;
    RunStep(env, prompt, retryCount, lastError);
    if k > 0 {
      RunFailures(env, next, retryCount + 1, LastError(a), k - 1);
    }
    FailedAtCons(env, prompt, rest.prompts, retryCount, k);
  }

  /** FailedAt on a list of prompts, from its head and FailedAt on its tail. */
  lemma FailedAtCons(env: Env, prompt: string, rest: seq<string>, start: nat, k: nat)
    requires k < |rest| + 1 && !Attempted(env, prompt, start).Passed?
    requires k > 0 ==> FailedAt(env, rest, start + 1, k - 1)
    ensures FailedAt(env, [prompt] + rest, start, k)
  {
    if k > 0 {
      assert ([prompt] + rest)[k] == rest[k - 1];
    }
  }

  /** A run with a second prompt made its first attempt within the budget, and that attempt failed. */
  lemma RunContinues(env: Env, prompt: string, retryCount: nat, lastError: string)
    requires 1 < |Run(env, prompt, retryCount, lastError).prompts|
    ensures retryCount <= env.maxRetries && !Attempted(env, prompt, retryCount).Passed?
  {
  }

  /** The first prompt of a run is the template it starts from. */
  lemma RunStartsWithTemplate(env: Env, prompt: string, retryCount: nat, lastError: string)
    ensures var t := Run(env, prompt, retryCount, lastError);
      t.prompts != [] ==> t.prompts[0] == prompt
  {
  }

  /**
   * One step of a run whose first attempt failed within the budget: the
   * rest of the run starts from the next prompt, and a later prompt exists
   * only when the budget allows another attempt.
   */
  lemma RunStep(env: Env, prompt: string, retryCount: nat, lastError: string)
    requires retryCount <= env.maxRetries && !Attempted(env, prompt, retryCount).Passed?
    ensures var a := Attempted(env, prompt, retryCount);
      var rest := Run(env, NextPrompt(env, prompt, retryCount, a), retryCount + 1, LastError(a));
      && Run(env, prompt, retryCount, lastError).prompts == [prompt] + rest.prompts
      && Run(env, prompt, retryCount, lastError).outcome == rest.outcome
      && (rest.prompts != [] ==> retryCount + 1 <= env.maxRetries)
  {
  }

  /**
   * Each later prompt of a run is its predecessor followed by the feedback
   * block of the failed attempt made with that predecessor.
   */
  lemma {:induction false} RunPrompts(env: Env, prompt: string, retryCount: nat, lastError: string, k: nat)
    requires 0 < k < |Run(env, prompt, retryCount, lastError).prompts|
    ensures GrewByFeedback(env, Run(env, prompt, retryCount, lastError).prompts, retryCount, k)
    decreases k
  {
    RunContinues(env, prompt, retryCount, lastError);
    var a := Attempted(env, prompt, retryCount);
    var next := NextPrompt(env, prompt, retryCount, a);
    var rest := Run(env, next, retryCount + 1, LastError(a));
    var ps := Run(env, prompt, retryCount, lastError).prompts;
    RunStep(env, prompt, retryCount, lastError);
    if k == 1 {
      RunStartsWithTemplate(env, next, retryCount + 1, LastError(a));
      assert rest.prompts[0] == next == prompt + Feedback(a, env.keys, env.stringify);
      GrewByFeedbackFirst(env, prompt, rest.prompts, retryCount);
    } else {
      RunPrompts(env, next, retryCount + 1, LastError(a), k - 1);
      GrewByFeedbackCons(env, prompt, rest.prompts, retryCount, k);
    }
  }

  /** GrewByFeedback at index 1 of a list of prompts, from its first two entries. */
  lemma GrewByFeedbackFirst(env: Env, prompt: string, rest: seq<string>, start: nat)
    requires rest != [] && !Attempted(env, prompt, start).Passed?
    requires rest[0] == prompt + Feedback(Attempted(env, prompt, start), env.keys, env.stringify)
    ensures GrewByFeedback(env, [prompt] + rest, start, 1)
  {
    assert ([prompt] + rest)[1] == rest[0];
  }

  /** GrewByFeedback at a later index of a list of prompts, from GrewByFeedback on its tail. */
  lemma GrewByFeedbackCons(env: Env, prompt: string, rest: seq<string>, start: nat, k: nat)
    requires 1 < k < |rest| + 1
    requires GrewByFeedback(env, rest, start + 1, k - 1)
    ensures GrewByFeedback(env, [prompt] + rest, start, k)
  {
    var ps := [prompt] + rest;
    assert ps[k] == rest[k - 1] && ps[k - 1] == rest[k - 2];
    assert Grew(env, rest[k - 2], rest[k - 1], start + k - 1);
  }

  /** One failed attempt: the run continues from the grown prompt with one more retry counted. */
  lemma RunAfterFailure(env: Env, prompt: string, retryCount: nat, lastError: string, a: Attempt, next: string, nextError: string)
    requires retryCount <= env.maxRetries && a == Attempted(env, prompt, retryCount) && !a.Passed?
    requires next == NextPrompt(env, prompt, retryCount, a) && nextError == LastError(a)
    ensures Run(env, prompt, retryCount, lastError).outcome == Run(env, next, retryCount + 1, nextError).outcome
  {
  }

  /** The value of `maxRetries` after destructuring with its default of 2. */
  function MaxRetriesOrDefault(maxRetries: Option<int>): (r: int)
    ensures maxRetries.None? ==> r == 2
  {
    if maxRetries.Some? then maxRetries.value else 2
  }

  /**
   * The retry loop of analyzeWithRetry, with one pass through the try block
   * given as `attempt` (see GeminiAttempt).  A failed attempt sets lastError,
   * counts a retry and, while the budget allows, appends the feedback block
   * for the next call; a parse failure or missing keys on the last allowed
   * attempt leave the loop at once.  `prompts` lists the prompt template in
   * force at each call.
   */
  method RetryLoop(
    attempt: (string, nat) -> Attempt, keys: seq<string>, stringify: Json -> string,
    systemPrompt: string, maxRetries: int)
    returns (outcome: AnalysisOutcome)
    ensures Run(Env(attempt, keys, stringify, maxRetries), systemPrompt, 0, "").outcome == outcome
  {
    ghost var env := Env(attempt, keys, stringify, maxRetries);
    ghost var whole := Run(env, systemPrompt, 0, "");
    var retryCount: nat := 0;
    var lastError := "";
    var prompt := systemPrompt;
    while retryCount <= maxRetries
      invariant Run(env, prompt, retryCount, lastError).outcome == whole.outcome
      decreases maxRetries + 1 - retryCount
    {
      var a := attempt(prompt, retryCount);
      ghost var (prompt0, retryCount0, lastError0) := (prompt, retryCount, lastError);
      match a
      case Passed(value) =>
        outcome := AnalysisOutcome(true, Some(value), None, retryCount);
        return;
      case CallFailed(message) =>
        lastError := message;
        retryCount := retryCount + 1;
        if retryCount <= maxRetries {
          prompt := prompt + (FailedHeader + lastError + RetryHint);
        }
        RunAfterFailure(env, prompt0, retryCount0, lastError0, a, prompt, lastError);
      case ParseFailed(parseError, response) =>
        lastError := ParseErrorPrefix + parseError;
        retryCount := retryCount + 1;
        if retryCount <= maxRetries {
          prompt := prompt + (FailedHeader + lastError
            + (SchemaHint + response));
          RunAfterFailure(env, prompt0, retryCount0, lastError0, a, prompt, lastError);
          continue;
        }
        RunAfterFailure(env, prompt0, retryCount0, lastError0, a, prompt, lastError);
        break;
      case KeysMissing(missing, value) =>
        lastError := MissingFieldsPrefix + Join(missing, ", ");
        retryCount := retryCount + 1;
        if retryCount <= maxRetries {
          prompt := prompt + (FailedHeader + lastError
            + (RequiredFieldsLabel + Join(keys, ", ") + PreviousResponseLabel + stringify(value)));
          RunAfterFailure(env, prompt0, retryCount0, lastError0, a, prompt, lastError);
          continue;
        }
        RunAfterFailure(env, prompt0, retryCount0, lastError0, a, prompt, lastError);
        break;
    }
    outcome := AnalysisOutcome(false, None, Some(lastError), retryCount);
  }

  /**
   * analyzeWithRetry: the retry loop over Gemini attempts, with the schema's
   * top-level keys as the required keys and a default budget of 2 retries.
   * The caller's prompt string is a value and is never changed.
   */
  method AnalyzeWithRetry(
    predict: (GenerationRequest, nat) -> Result<Option<seq<PValue>>, string>,
    parse: string -> Result<Json, string>,
    stringify: Json -> string,
    fileUrl: string, mimeType: string, systemPrompt: string,
    contextFields: seq<(string, string)>,
    expectedSchema: seq<(string, Json)>,
    maxRetries: Option<int>)
    returns (outcome: AnalysisOutcome)
    ensures var keys := Keys(expectedSchema);
      var env := Env(GeminiAttempt(predict, parse, fileUrl, mimeType, contextFields, keys), keys, stringify, MaxRetriesOrDefault(maxRetries));
      Run(env, systemPrompt, 0, "").outcome == outcome
    ensures outcome.success <==> outcome.result.Some?
    ensures outcome.success <==> outcome.error.None?
    ensures outcome.success ==> outcome.retryCount <= MaxRetriesOrDefault(maxRetries)
    ensures outcome.success ==> CheckKeys(Keys(expectedSchema), outcome.result.value) == Ok([])
    ensures !outcome.success ==> outcome.retryCount == Max0(MaxRetriesOrDefault(maxRetries) + 1)
  {
    var keys := Keys(expectedSchema);
    var max := MaxRetriesOrDefault(maxRetries);
    var attempt := GeminiAttempt(predict, parse, fileUrl, mimeType, contextFields, keys);
    outcome := RetryLoop(attempt, keys, stringify, systemPrompt, max);
    ghost var env := Env(attempt, keys, stringify, max);
    RunOutcome(env, systemPrompt, 0, "");
    if outcome.success {
      RunSuccessPassed(env, systemPrompt, 0, "");
      ghost var t := Run(env, systemPrompt, 0, "");
      ghost var last := t.prompts[|t.prompts| - 1];
      ghost var call := AnalyzeWithGemini(predict, fileUrl, mimeType, last, contextFields, outcome.retryCount);
      assert attempt(last, outcome.retryCount) == EvalAttempt(call, parse, keys);
      assert attempt(last, outcome.retryCount) == Passed(outcome.result.value);
    }
  }
}

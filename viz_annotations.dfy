/**
 * add_viz_annotations.py: the rewrite that walks a JSON Schema and writes an
 * `x-viz` annotation into every property whose name matches one of an
 * ordered list of rules, and the choice of the schema root in
 * process_schema_file.  The script mutates the loaded tree in place; a tree
 * from json.load shares no sub-objects, so the rewrite is modelled as a
 * function from the old tree to the new one.
 */
module VizAnnotations {
  import opened Wrappers
  import opened Strings
  import opened Json

  /** The Python exceptions the rewrite can raise on a malformed schema. */
  datatype Failure =
    | AttributeError  // `.get` or `.items` called on something that is not a dict
    | TypeError       // item assignment on, or `in`/indexing of, something that is not a dict

  const XViz := "x-viz"

  function Style(size: string, weight: string, color: string): Json
  {
    JObj([("type", JStr("custom")), ("size", JStr(size)), ("weight", JStr(weight)), ("color", JStr(color))])
  }

  const ScoreViz := Style("lg", "bold", "text-blue-600")
  const TimeViz := Style("sm", "medium", "text-gray-500")
  const DescriptionViz := Style("base", "normal", "text-gray-700")
  const SectionViz := JStr("section_headline")
  const HeadlineViz := JStr("paragraph_headline")
  const BulletViz := JStr("bullet_point")

  /** What the rule table does with a property of a given name. */
  datatype Rule =
    | SetViz(viz: Json)  // `prop["x-viz"] = viz`
    | MarkItems          // the action_plan rule: annotate the array's object items
    | NoRule

  /** The rule table, tried in order; the first matching rule wins. */
  function RuleFor(key: string): Rule
  {
    if Contains(key, "_score") || Contains(key, "_rating") then SetViz(ScoreViz)
    else if Contains(key, "_timestamp") || Contains(key, "_time") then SetViz(TimeViz)
    else if "section_" <= key then SetViz(SectionViz)
    else if Contains(key, "_title") || Contains(key, "_headline") then SetViz(HeadlineViz)
    else if Contains(key, "_analysis") || Contains(key, "_description") || Contains(key, "_verdict") then SetViz(DescriptionViz)
    else if key == "action_plan" then MarkItems
    else NoRule
  }

  /** `node.get("type") == t`, for a dict node. */
  predicate TypeIs(node: Json, t: string)
  {
    node.JObj? && Get(node.entries, "type") == Some(JStr(t))
  }

  /** The rule stage for one property. */
  function ApplyRule(rule: Rule, prop: Json): Result<Json, Failure>
  {
    if !prop.JObj? then Err(if rule.SetViz? then TypeError else AttributeError)
    else
      match rule
      case SetViz(v) => Ok(JObj(SetKey(prop.entries, XViz, v)))
      case MarkItems =>
        if !TypeIs(prop, "array") then Ok(prop)
        else
          var items := GetOr(prop.entries, "items", JObj([]));
          if !items.JObj? then Err(AttributeError)
          else if TypeIs(items, "object") then Ok(JObj(SetKey(prop.entries, "items", JObj(SetKey(items.entries, XViz, BulletViz)))))
          else Ok(prop)
      case NoRule => Ok(prop)
  }

  /**
   * The rule stage writes only `x-viz` into the property or into its items:
   * the property stays a dict, its type and its `properties` are unchanged,
   * and object items keep their type and `properties`.
   */
  lemma RuleKeepsShape(rule: Rule, prop: Json)
    requires ApplyRule(rule, prop).Ok?
    ensures prop.JObj? && ApplyRule(rule, prop).value.JObj?
    ensures var p := ApplyRule(rule, prop).value;
      && Get(p.entries, "properties") == Get(prop.entries, "properties")
      && Get(p.entries, "type") == Get(prop.entries, "type")
    ensures var items := GetOr(ApplyRule(rule, prop).value.entries, "items", JObj([]));
      TypeIs(items, "object") ==>
        && Get(prop.entries, "items").Some? && TypeIs(Get(prop.entries, "items").value, "object")
        && Get(items.entries, "properties") == Get(Get(prop.entries, "items").value.entries, "properties")
  {
    var p := ApplyRule(rule, prop).value;
    match rule
    case SetViz(v) =>
      GetSetKey(prop.entries, XViz, v, "properties");
      GetSetKey(prop.entries, XViz, v, "type");
      GetSetKey(prop.entries, XViz, v, "items");
    case MarkItems =>
      if TypeIs(prop, "array") {
        var items := GetOr(prop.entries, "items", JObj([]));
        if TypeIs(items, "object") {
          var marked := JObj(SetKey(items.entries, XViz, BulletViz));
          GetSetKey(prop.entries, "items", marked, "properties");
          GetSetKey(prop.entries, "items", marked, "type");
          GetSetKey(prop.entries, "items", marked, "items");
          GetSetKey(items.entries, XViz, BulletViz, "properties");
          GetSetKey(items.entries, XViz, BulletViz, "type");
        }
      }
    case NoRule =>
  }

  /** add_viz_annotations on a whole tree: a non-dict is left as it is. */
  function Annotated(node: Json): Result<Json, Failure>
  {
    if node.JObj? then Reannotate(node, node) else Ok(node)
  }

  /**
   * add_viz_annotations on the dict `node`, whose `properties` are those of
   * `like` (`node` is `like` after the rule stage wrote its `x-viz`).  A
   * missing `properties` is an empty dict: nothing to do.
   */
  function Reannotate(node: Json, like: Json): Result<Json, Failure>
    requires node.JObj? && like.JObj? && Get(node.entries, "properties") == Get(like.entries, "properties")
    decreases like, 2
  {
    match Get(like.entries, "properties")
    case None => Ok(node)
    case Some(props) =>
      match AnnotatedProps(props)
      case Err(e) => Err(e)
      case Ok(newProps) => Ok(JObj(SetKey(node.entries, "properties", newProps)))
  }

  /** The loop over `properties.items()`; the first failing property stops it. */
  function AnnotatedProps(props: Json): Result<Json, Failure>
    decreases props, 1
  {
    if !props.JObj? then Err(AttributeError)
    else
      match AnnotatedFrom(props, 0)
      case Err(e) => Err(e)
      case Ok(es) => Ok(JObj(es))
  }

  /**
   * The loop from the `i`-th property on: the property is processed, then
   * the ones after it; the first failing property stops the loop.
   */
  function AnnotatedFrom(props: Json, i: nat): Result<seq<(string, Json)>, Failure>
    requires props.JObj? && i <= |props.entries|
    decreases props, 0, |props.entries| - i
  {
    if i == |props.entries| then Ok([])
    else
      assert props.entries[i] in props.entries;
      var key := props.entries[i].0;
      match AnnotatedProperty(key, props.entries[i].1)
      case Err(e) => Err(e)
      case Ok(p) => Prepend([(key, p)], AnnotatedFrom(props, i + 1))
  }

  /** The entries `front` followed by the outcome of the rest of the loop. */
  function Prepend(front: seq<(string, Json)>, rest: Result<seq<(string, Json)>, Failure>): Result<seq<(string, Json)>, Failure>
  {
    match rest
    case Err(e) => Err(e)
    case Ok(es) => Ok(front + es)
  }

  lemma PrependNothing(rest: Result<seq<(string, Json)>, Failure>)
    ensures Prepend([], rest) == rest
  {
    if rest.Ok? {
      assert [] + rest.value == rest.value;
    }
  }

  lemma PrependTwice(a: seq<(string, Json)>, b: seq<(string, Json)>, rest: Result<seq<(string, Json)>, Failure>)
    ensures Prepend(a, Prepend(b, rest)) == Prepend(a + b, rest)
  {
    if rest.Ok? {
      assert a + (b + rest.value) == (a + b) + rest.value;
    }
  }

  /**
   * One iteration of the loop: the rule stage, then the descent into a
   * nested object, or into the object items of an array.
   */
  function AnnotatedProperty(key: string, prop: Json): Result<Json, Failure>
    decreases prop, 3
  {
    match ApplyRule(RuleFor(key), prop)
    case Err(e) => Err(e)
    case Ok(p) =>
      RuleKeepsShape(RuleFor(key), prop);
      if TypeIs(p, "object") then Reannotate(p, prop)
      else if TypeIs(p, "array") then
        var items := GetOr(p.entries, "items", JObj([]));
        if TypeIs(items, "object") then
          var original := Get(prop.entries, "items").value;
          assert ("items", original) in prop.entries;
          match Reannotate(items, original)
          case Err(e) => Err(e)
          case Ok(newItems) => Ok(JObj(SetKey(p.entries, "items", newItems)))
        else Ok(p)
      else Ok(p)
  }

  /**
   * add_viz_annotations: a non-dict is returned at once; a dict has its
   * properties annotated.
   */
  method AddVizAnnotations(schemaObj: Json) returns (r: Result<Json, Failure>)
    ensures r == Annotated(schemaObj)
    ensures !schemaObj.JObj? ==> r == Ok(schemaObj)
  {
    if !schemaObj.JObj? {
      return Ok(schemaObj);
    }
    r := AnnotateObject(schemaObj, schemaObj);
  }

  /**
   * The body of add_viz_annotations on a dict: the loop over its properties.
   * `like` is the node before the rule stage of its parent's loop wrote into it.
   */
  method AnnotateObject(node: Json, ghost like: Json) returns (r: Result<Json, Failure>)
    requires node.JObj? && like.JObj? && Get(node.entries, "properties") == Get(like.entries, "properties")
    ensures r == Reannotate(node, like)
    decreases like, 2
  {
    var properties := GetOr(node.entries, "properties", JObj([]));
    if !properties.JObj? {
      return Err(AttributeError);
    }
    var entries := properties.entries;
    var updated: seq<(string, Json)> := [];
    PrependNothing(AnnotatedFrom(properties, 0));
    for i := 0 to |entries|
      invariant Prepend(updated, AnnotatedFrom(properties, i)) == AnnotatedFrom(properties, 0)
    {
      assert ("properties", properties) in like.entries;
      assert entries[i] in entries;
      var key := entries[i].0;
      var prop := ProcessProperty(key, entries[i].1);
      if prop.Err? {
        return Err(prop.error);
      }
      PrependTwice(updated, [(key, prop.value)], AnnotatedFrom(properties, i + 1));
      updated := updated + [(key, prop.value)];
    }
    assert updated + [] == updated;
    if Get(node.entries, "properties").Some? {
      r := Ok(JObj(SetKey(node.entries, "properties", JObj(updated))));
    } else {
      r := Ok(node);
    }
  }

  /** One iteration of the loop: the rule stage, then the recursive calls. */
  method ProcessProperty(key: string, prop: Json) returns (r: Result<Json, Failure>)
    ensures r == AnnotatedProperty(key, prop)
    decreases prop, 3
  {
    var staged := ApplyRule(RuleFor(key), prop);
    if staged.Err? {
      return staged;
    }
    RuleKeepsShape(RuleFor(key), prop);
    var p := staged.value;
    if TypeIs(p, "object") {
      r := AnnotateObject(p, prop);
    } else if TypeIs(p, "array") {
      var items := GetOr(p.entries, "items", JObj([]));
      if TypeIs(items, "object") {
        ghost var original := Get(prop.entries, "items").value;
        assert ("items", original) in prop.entries;
        var annotated := AnnotateObject(items, original);
        if annotated.Err? {
          return annotated;
        }
        r := Ok(JObj(SetKey(p.entries, "items", annotated.value)));
      } else {
        r := Ok(p);
      }
    } else {
      r := Ok(p);
    }
  }

  // ---------------------------------------------------------------------------
  // process_schema_file, between json.load and json.dump
  // ---------------------------------------------------------------------------

  /**
   * The schema sits under "schema" when the document has that key, else the
   * document is the schema.  `"schema" in data` is key membership on a dict,
   * element membership on a list and substring search on a string, and a
   * TypeError on anything else; indexing a list or string by "schema" is a
   * TypeError too.
   */
  function ProcessSchema(data: Json): Result<Json, Failure>
  {
    match data
    case JObj(es) =>
      if "schema" in Keys(es) then
        match Annotated(Get(es, "schema").value)
        case Err(e) => Err(e)
        case Ok(schema) => Ok(JObj(SetKey(es, "schema", schema)))
      else Annotated(data)
    case JArr(xs) => if JStr("schema") in xs then Err(TypeError) else Annotated(data)
    case JStr(t) => if Contains(t, "schema") then Err(TypeError) else Annotated(data)
    case _ => Err(TypeError)
  }

  /** process_schema_file on the loaded document: the in-place rewrite of the chosen schema. */
  method ProcessSchemaFile(data: Json) returns (r: Result<Json, Failure>)
    ensures r == ProcessSchema(data)
  {
    match data
    case JObj(es) =>
      if "schema" in Keys(es) {
        var schema := AddVizAnnotations(Get(es, "schema").value);
        if schema.Err? {
          return Err(schema.error);
        }
        r := Ok(JObj(SetKey(es, "schema", schema.value)));
      } else {
        r := AddVizAnnotations(data);
      }
    case JArr(xs) =>
      if JStr("schema") in xs {
        r := Err(TypeError);
      } else {
        r := AddVizAnnotations(data);
      }
    case JStr(t) =>
      if Contains(t, "schema") {
        r := Err(TypeError);
      } else {
        r := AddVizAnnotations(data);
      }
    case _ =>
      r := Err(TypeError);
  }
}

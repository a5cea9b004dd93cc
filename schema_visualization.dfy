/**
 * shared/schemaVisualization.ts: the walk that collects the `x-viz`
 * annotations of a JSON Schema with the paths of the fields they annotate,
 * the lookup of a field's style by path, and the inference of a style from a
 * field's name.
 */
module SchemaVisualization {
  import opened Wrappers
  import opened Strings
  import opened VisualizationDictionary

  /** SchemaProperty: a schema node as the walk reads it. */
  datatype SchemaProperty = SchemaProperty(
    typ: string,
    description: Option<string>,
    properties: Properties,
    items: Option<SchemaProperty>,
    viz: Option<VizAnnotation>)

  /** The optional `properties` record of a schema node, in key order. */
  datatype Properties = NoProperties | Properties(entries: seq<(string, SchemaProperty)>)

  /** VisualizationMetadata: the path of an annotated field, its resolved style and its description. */
  datatype Metadata = Metadata(path: string, style: Style, description: Option<string>)

  // ---------------------------------------------------------------------------
  // extractVisualizationMetadata
  // ---------------------------------------------------------------------------

  /** `property["x-viz"]` is truthy: an inline style object, or an id other than "". */
  predicate HasViz(p: SchemaProperty)
  {
    p.viz.Some? && (p.viz.value.VizInline? || p.viz.value.id != [])
  }

  /** The entry an annotated property gives. */
  function Entry(path: string, p: SchemaProperty): Metadata
    requires HasViz(p)
  {
    Metadata(path, ResolveStyle(p.viz.value), p.description)
  }

  /** currentPath: the key alone under an empty parent path, else `parent.key`. */
  function ChildPath(parent: string, key: string): string
  {
    if parent != [] then parent + "." + key else key
  }

  /** An object property with properties of its own is walked into. */
  predicate IsNestedObject(p: SchemaProperty)
  {
    p.typ == "object" && p.properties.Properties?
  }

  /** An array property whose items are an object with properties has those items walked into. */
  predicate HasObjectItems(p: SchemaProperty)
  {
    p.typ == "array" && p.items.Some? && IsNestedObject(p.items.value)
  }

  /** The metadata list of `schema` under `parent`. */
  function Extract(schema: SchemaProperty, parent: string): seq<Metadata>
    decreases schema, 1
  {
    if schema.properties.NoProperties? then [] else ExtractUpTo(schema, parent, |schema.properties.entries|)
  }

  /** The metadata of the first `n` properties of `schema`. */
  function ExtractUpTo(schema: SchemaProperty, parent: string, n: nat): seq<Metadata>
    requires schema.properties.Properties? && n <= |schema.properties.entries|
    decreases schema, 0, n
  {
    if n == 0 then []
    else
      assert schema.properties.entries[n - 1] in schema.properties.entries;
      var prop := schema.properties.entries[n - 1].1;
      ExtractUpTo(schema, parent, n - 1) + PropertyEntries(prop, ChildPath(parent, schema.properties.entries[n - 1].0))
  }

  /** A property's own entry, then its nested properties' entries, then its object items' entries. */
  function PropertyEntries(prop: SchemaProperty, path: string): seq<Metadata>
    decreases prop, 2
  {
    (if HasViz(prop) then [Entry(path, prop)] else [])
    + (if IsNestedObject(prop) then Extract(prop, path) else [])
    + (if HasObjectItems(prop) then Extract(prop.items.value, path + "[]") else [])
  }

  /**
   * extractVisualizationMetadata: for each property in order, push its entry
   * when it is annotated, then the entries of its nested object and of its
   * object items.
   */
  method ExtractVisualizationMetadata(schema: SchemaProperty, parentPath: string) returns (metadata: seq<Metadata>)
    ensures metadata == Extract(schema, parentPath)
    ensures schema.properties.NoProperties? ==> metadata == []
    decreases schema, 1
  {
    metadata := [];
    if schema.properties.NoProperties? {
      return;
    }
    var props := schema.properties.entries;
    for i := 0 to |props|
      invariant metadata == ExtractUpTo(schema, parentPath, i)
    {
      assert props[i] in props;
      var key := props[i].0;
      var currentPath := if parentPath != [] then parentPath + "." + key else key;
      var entries := PropertyMetadata(props[i].1, currentPath);
      metadata := metadata + entries;
    }
  }

  /** The body of the walk's loop for one property: its entry if annotated, then its nested and item entries. */
  method PropertyMetadata(property: SchemaProperty, currentPath: string) returns (entries: seq<Metadata>)
    ensures entries == PropertyEntries(property, currentPath)
    decreases property, 2
  {
    entries := [];
    if HasViz(property) {
      var style := ResolveStyle(property.viz.value);
      entries := entries + [Metadata(currentPath, style, property.description)];
    }
    ghost var own := entries;
    assert own == if HasViz(property) then [Entry(currentPath, property)] else [];
    if property.typ == "object" && property.properties.Properties? {
      var nestedMetadata := ExtractVisualizationMetadata(property, currentPath);
      entries := entries + nestedMetadata;
    }
    assert entries == own + (if IsNestedObject(property) then Extract(property, currentPath) else []);
    ghost var nested := entries;
    if property.typ == "array" && property.items.Some? {
      var items := property.items.value;
      if items.typ == "object" && items.properties.Properties? {
        var arrayMetadata := ExtractVisualizationMetadata(items, currentPath + "[]");
        entries := entries + arrayMetadata;
      }
    }
    assert entries == nested + (if HasObjectItems(property) then Extract(property.items.value, currentPath + "[]") else []);
  }

  // ---------------------------------------------------------------------------
  // The walk as a pre-order list of visited properties
  // ---------------------------------------------------------------------------

  /** Every property the walk visits, with its path, in visiting order. */
  function Nodes(schema: SchemaProperty, parent: string): seq<(string, SchemaProperty)>
    decreases schema, 1
  {
    if schema.properties.NoProperties? then [] else NodesUpTo(schema, parent, |schema.properties.entries|)
  }

  function NodesUpTo(schema: SchemaProperty, parent: string, n: nat): seq<(string, SchemaProperty)>
    requires schema.properties.Properties? && n <= |schema.properties.entries|
    decreases schema, 0, n
  {
    if n == 0 then []
    else
      assert schema.properties.entries[n - 1] in schema.properties.entries;
      var prop := schema.properties.entries[n - 1].1;
      NodesUpTo(schema, parent, n - 1) + PropertyNodes(prop, ChildPath(parent, schema.properties.entries[n - 1].0))
  }

  /** A property, then everything visited below it. */
  function PropertyNodes(prop: SchemaProperty, path: string): seq<(string, SchemaProperty)>
    decreases prop, 2
  {
    [(path, prop)]
    + (if IsNestedObject(prop) then Nodes(prop, path) else [])
    + (if HasObjectItems(prop) then Nodes(prop.items.value, path + "[]") else [])
  }

  /** The entries of the annotated properties among `ns`, in order. */
  function Emit(ns: seq<(string, SchemaProperty)>): (r: seq<Metadata>)
    ensures |r| <= |ns|
    ensures forall k :: 0 <= k < |ns| && HasViz(ns[k].1) ==> Entry(ns[k].0, ns[k].1) in r
    ensures forall m :: m in r ==> exists k :: 0 <= k < |ns| && HasViz(ns[k].1) && m == Entry(ns[k].0, ns[k].1)
  {
    if ns == [] then []
    else
      var rest := Emit(ns[1..]);
      assert forall m :: m in rest ==> exists k :: 0 <= k < |ns| && HasViz(ns[k].1) && m == Entry(ns[k].0, ns[k].1) by {
        forall m | m in rest ensures exists k :: 0 <= k < |ns| && HasViz(ns[k].1) && m == Entry(ns[k].0, ns[k].1) {
          var k :| 0 <= k < |ns[1..]| && HasViz(ns[1..][k].1) && m == Entry(ns[1..][k].0, ns[1..][k].1);
          assert ns[k + 1] == ns[1..][k];
        }
      }
      assert forall k :: 1 <= k < |ns| && HasViz(ns[k].1) ==> Entry(ns[k].0, ns[k].1) in rest by {
        forall k | 1 <= k < |ns| && HasViz(ns[k].1) ensures Entry(ns[k].0, ns[k].1) in rest {
          assert ns[k] == ns[1..][k - 1];
        }
      }
      (if HasViz(ns[0].1) then [Entry(ns[0].0, ns[0].1)] else []) + rest
  }

  lemma {:induction false} EmitAppend(a: seq<(string, SchemaProperty)>, b: seq<(string, SchemaProperty)>)
    ensures Emit(a + b) == Emit(a) + Emit(b)
  {
    if a != [] {
      assert (a + b)[0] == a[0];
      assert (a + b)[1..] == a[1..] + b;
      EmitAppend(a[1..], b);
      var head := if HasViz(a[0].1) then [Entry(a[0].0, a[0].1)] else [];
      assert Emit(a) == head + Emit(a[1..]);
      assert Emit(a + b) == head + Emit(a[1..] + b);
    } else {
      assert a + b == b;
    }
  }

  /**
   * The metadata list is exactly the entries of the annotated properties of
   * the walk, in the walk's order: nothing else is emitted and nothing
   * annotated is skipped.
   */
  lemma {:induction false} ExtractIsAnnotatedNodes(schema: SchemaProperty, parent: string)
    ensures Extract(schema, parent) == Emit(Nodes(schema, parent))
    decreases schema, 1
  {
    if schema.properties.Properties? {
      ExtractUpToIsAnnotatedNodes(schema, parent, |schema.properties.entries|);
    }
  }

  lemma {:induction false} ExtractUpToIsAnnotatedNodes(schema: SchemaProperty, parent: string, n: nat)
    requires schema.properties.Properties? && n <= |schema.properties.entries|
    ensures ExtractUpTo(schema, parent, n) == Emit(NodesUpTo(schema, parent, n))
    decreases schema, 0, n
  {
    if n > 0 {
      assert schema.properties.entries[n - 1] in schema.properties.entries;
      var prop := schema.properties.entries[n - 1].1;
      var path := ChildPath(parent, schema.properties.entries[n - 1].0);
      ExtractUpToIsAnnotatedNodes(schema, parent, n - 1);
      PropertyEntriesAreAnnotatedNodes(prop, path);
      EmitAppend(NodesUpTo(schema, parent, n - 1), PropertyNodes(prop, path));
    }
  }

  lemma {:induction false} PropertyEntriesAreAnnotatedNodes(prop: SchemaProperty, path: string)
    ensures PropertyEntries(prop, path) == Emit(PropertyNodes(prop, path))
    decreases prop, 2
  {
    var nested := if IsNestedObject(prop) then Nodes(prop, path) else [];
    var itemNodes := if HasObjectItems(prop) then Nodes(prop.items.value, path + "[]") else [];
    if IsNestedObject(prop) {
      ExtractIsAnnotatedNodes(prop, path);
    }
    if HasObjectItems(prop) {
      ExtractIsAnnotatedNodes(prop.items.value, path + "[]");
    }
    EmitAppend([(path, prop)] + nested, itemNodes);
    EmitAppend([(path, prop)], nested);
  }

  /** Under a non-empty parent path every visited property's path is `parent.` followed by more. */
  lemma {:induction false} NodePathsExtendParent(schema: SchemaProperty, parent: string)
    requires parent != []
    ensures forall k :: 0 <= k < |Nodes(schema, parent)| ==> parent + "." <= Nodes(schema, parent)[k].0
    decreases schema, 1
  {
    if schema.properties.Properties? {
      NodesUpToExtendParent(schema, parent, |schema.properties.entries|);
    }
  }

  lemma {:induction false} NodesUpToExtendParent(schema: SchemaProperty, parent: string, n: nat)
    requires parent != []
    requires schema.properties.Properties? && n <= |schema.properties.entries|
    ensures forall k :: 0 <= k < |NodesUpTo(schema, parent, n)| ==> parent + "." <= NodesUpTo(schema, parent, n)[k].0
    decreases schema, 0, n
  {
    if n > 0 {
      assert schema.properties.entries[n - 1] in schema.properties.entries;
      var prop := schema.properties.entries[n - 1].1;
      var key := schema.properties.entries[n - 1].0;
      var path := ChildPath(parent, key);
      NodesUpToExtendParent(schema, parent, n - 1);
      PropertyNodesUnderPath(prop, path);
      var front: seq<(string, SchemaProperty)> := NodesUpTo(schema, parent, n - 1);
      var back: seq<(string, SchemaProperty)> := PropertyNodes(prop, path);
      assert parent + "." <= path by {
        assert path == (parent + ".") + key;
      }
      forall k | 0 <= k < |front + back| ensures parent + "." <= (front + back)[k].0 {
        if k >= |front| {
          assert (front + back)[k] == back[k - |front|];
          PrefixTransitive(parent + ".", path, back[k - |front|].0);
        }
      }
    }
  }

  /**
   * Pre-order: a property comes first in its own part of the walk, and every
   * property after it there is a descendant whose path is `path.` or
   * `path[].` followed by more.
   */
  lemma {:induction false} PropertyNodesUnderPath(prop: SchemaProperty, path: string)
    requires path != []
    ensures PropertyNodes(prop, path)[0] == (path, prop)
    ensures forall k :: 0 <= k < |PropertyNodes(prop, path)| ==> path <= PropertyNodes(prop, path)[k].0
    ensures forall k :: 1 <= k < |PropertyNodes(prop, path)| ==>
      path + "." <= PropertyNodes(prop, path)[k].0 || path + "[]." <= PropertyNodes(prop, path)[k].0
    decreases prop, 2
  {
    var nested := if IsNestedObject(prop) then Nodes(prop, path) else [];
    var itemNodes := if HasObjectItems(prop) then Nodes(prop.items.value, path + "[]") else [];
    var all: seq<(string, SchemaProperty)> := [(path, prop)] + nested + itemNodes;
    if IsNestedObject(prop) {
      NodePathsExtendParent(prop, path);
    }
    if HasObjectItems(prop) {
      NodePathsExtendParent(prop.items.value, path + "[]");
      assert path + "[]" + "." == path + "[].";
    }
    forall k | 1 <= k < |all| ensures path + "." <= all[k].0 || path + "[]." <= all[k].0 {
      if k <= |nested| {
        assert all[k] == nested[k - 1];
      } else {
        assert all[k] == itemNodes[k - 1 - |nested|];
      }
    }
    forall k | 0 <= k < |all| ensures path <= all[k].0 {
      if k > 0 {
        if path + "." <= all[k].0 {
          PrefixTransitive(path, path + ".", all[k].0);
        } else {
          PrefixTransitive(path, path + "[].", all[k].0);
        }
      }
    }
  }

  lemma PrefixTransitive(a: string, b: string, c: string)
    requires a <= b && b <= c
    ensures a <= c
  {
    assert c[..|a|] == b[..|a|];
  }

  /**
   * An example of the path rules on one fixed schema: a top-level property's
   * path is its key, a nested property's path is `parent.key`, an item
   * property's path is `parent[].key`.
   */
  lemma ExamplePaths(leaf: SchemaProperty, id: string)
    requires HasViz(leaf) && !IsNestedObject(leaf) && !HasObjectItems(leaf)
    ensures
      var obj := SchemaProperty("object", None, Properties([("brand", leaf)]), None, None);
      var list := SchemaProperty("array", None, NoProperties, Some(obj), None);
      var root := SchemaProperty("object", None, Properties([("meta", obj), ("steps", list)]), None, None);
      Extract(root, "") == [Entry("meta.brand", leaf), Entry("steps[].brand", leaf)]
  {
    var obj := SchemaProperty("object", None, Properties([("brand", leaf)]), None, None);
    var list := SchemaProperty("array", None, NoProperties, Some(obj), None);
    var root := SchemaProperty("object", None, Properties([("meta", obj), ("steps", list)]), None, None);
    assert PropertyEntries(leaf, "meta.brand") == [Entry("meta.brand", leaf)];
    assert PropertyEntries(leaf, "steps[].brand") == [Entry("steps[].brand", leaf)];
    assert Extract(obj, "meta") == [Entry("meta.brand", leaf)] by {
      assert "meta" + "." + "brand" == "meta.brand";
      assert ExtractUpTo(obj, "meta", 1) == ExtractUpTo(obj, "meta", 0) + PropertyEntries(leaf, "meta" + "." + "brand");
    }
    assert Extract(obj, "steps[]") == [Entry("steps[].brand", leaf)] by {
      assert "steps[]" + "." + "brand" == "steps[].brand";
      assert ExtractUpTo(obj, "steps[]", 1) == ExtractUpTo(obj, "steps[]", 0) + PropertyEntries(leaf, "steps[]" + "." + "brand");
    }
    assert PropertyEntries(obj, "meta") == [Entry("meta.brand", leaf)];
    assert PropertyEntries(list, "steps") == [Entry("steps[].brand", leaf)] by {
      assert "steps" + "[]" == "steps[]";
    }
    assert ExtractUpTo(root, "", 1) == [Entry("meta.brand", leaf)];
  }

  // ---------------------------------------------------------------------------
  // getFieldVisualization
  // ---------------------------------------------------------------------------

  /** One element of a path pattern: a character, any character (regex `.`), or one or more digits (`\d+`). */
  datatype Token = Char(c: char) | AnyChar | Digits

  /**
   * The regular expression getFieldVisualization builds from a stored path:
   * each `[]` becomes `\[\d+\]`.  With `dotIsWildcard` a `.` stays a regex
   * wildcard, as the source builds it; without, it is a literal dot.
   */
  function Compile(path: string, dotIsWildcard: bool): seq<Token>
  {
    if path == [] then []
    else if |path| >= 2 && path[0] == '[' && path[1] == ']' then [Char('['), Digits, Char(']')] + Compile(path[2..], dotIsWildcard)
    else if path[0] == '.' && dotIsWildcard then [AnyChar] + Compile(path[1..], dotIsWildcard)
    else [Char(path[0])] + Compile(path[1..], dotIsWildcard)
  }

  /** The characters a regex `.` does not match. */
  predicate IsLineTerminator(c: char)
  {
    c == '\n' || c == '\r' || c == '\U{2028}' || c == '\U{2029}'
  }

  /** The anchored regex `^pattern$` matches all of `s`. */
  predicate Matches(pattern: seq<Token>, s: string)
    decreases |s|, |pattern|
  {
    if pattern == [] then s == []
    else
      match pattern[0]
      case Char(c) => s != [] && s[0] == c && Matches(pattern[1..], s[1..])
      case AnyChar => s != [] && !IsLineTerminator(s[0]) && Matches(pattern[1..], s[1..])
      case Digits => s != [] && IsDigit(s[0]) && (Matches(pattern[1..], s[1..]) || Matches(pattern, s[1..]))
  }

  /** Index of the first entry whose path is `fieldPath`. */
  function FindExact(metadata: seq<Metadata>, fieldPath: string): (r: Option<nat>)
    ensures r.Some? ==> r.value < |metadata| && metadata[r.value].path == fieldPath
    ensures r.Some? ==> forall j :: 0 <= j < r.value ==> metadata[j].path != fieldPath
    ensures r.None? ==> forall j :: 0 <= j < |metadata| ==> metadata[j].path != fieldPath
  {
    if metadata == [] then None
    else if metadata[0].path == fieldPath then Some(0)
    else
      var r := FindExact(metadata[1..], fieldPath);
      if r.Some? then Some(r.value + 1) else None
  }

  /** Index of the first entry whose path pattern matches `fieldPath`. */
  function FindPattern(metadata: seq<Metadata>, fieldPath: string, dotIsWildcard: bool): (r: Option<nat>)
    ensures r.Some? ==> r.value < |metadata| && Matches(Compile(metadata[r.value].path, dotIsWildcard), fieldPath)
    ensures r.Some? ==> forall j :: 0 <= j < r.value ==> !Matches(Compile(metadata[j].path, dotIsWildcard), fieldPath)
    ensures r.None? ==> forall j :: 0 <= j < |metadata| ==> !Matches(Compile(metadata[j].path, dotIsWildcard), fieldPath)
  {
    if metadata == [] then None
    else if Matches(Compile(metadata[0].path, dotIsWildcard), fieldPath) then Some(0)
    else
      var r := FindPattern(metadata[1..], fieldPath, dotIsWildcard);
      if r.Some? then Some(r.value + 1) else None
  }

  /** Exact match first, then pattern match, each taking the first entry in list order; None is `null`. */
  function FieldVisualizationWith(metadata: seq<Metadata>, fieldPath: string, dotIsWildcard: bool): Option<Style>
  {
    var exact := FindExact(metadata, fieldPath);
    if exact.Some? then Some(metadata[exact.value].style)
    else
      var arrayMatch := FindPattern(metadata, fieldPath, dotIsWildcard);
      if arrayMatch.Some? then Some(metadata[arrayMatch.value].style) else None
  }

  /** getFieldVisualization as written: a `.` in a stored path matches any character. */
  function FieldVisualizationAsWritten(metadata: seq<Metadata>, fieldPath: string): Option<Style>
  {
    FieldVisualizationWith(metadata, fieldPath, true)
  }

  /** getFieldVisualization with the dots of stored paths matched literally. */
  function FieldVisualization(metadata: seq<Metadata>, fieldPath: string): Option<Style>
  {
    FieldVisualizationWith(metadata, fieldPath, false)
  }

  /** An exact path match wins over any pattern match, and the first exact match in list order wins. */
  lemma ExactMatchWins(metadata: seq<Metadata>, fieldPath: string, k: nat)
    requires k < |metadata| && metadata[k].path == fieldPath
    requires forall j :: 0 <= j < k ==> metadata[j].path != fieldPath
    ensures FieldVisualization(metadata, fieldPath) == Some(metadata[k].style)
    ensures FieldVisualizationAsWritten(metadata, fieldPath) == Some(metadata[k].style)
  {
  }

  /**
   * With no exact match, the first entry whose pattern matches wins; with
   * neither, the result is null.  This holds whether dots are wildcards (the
   * code as written) or literal.
   */
  lemma PatternMatchFallback(metadata: seq<Metadata>, fieldPath: string, dotIsWildcard: bool)
    requires forall j :: 0 <= j < |metadata| ==> metadata[j].path != fieldPath
    ensures forall k :: 0 <= k < |metadata| && Matches(Compile(metadata[k].path, dotIsWildcard), fieldPath)
                        && (forall j :: 0 <= j < k ==> !Matches(Compile(metadata[j].path, dotIsWildcard), fieldPath))
                        ==> FieldVisualizationWith(metadata, fieldPath, dotIsWildcard) == Some(metadata[k].style)
    ensures FieldVisualizationWith(metadata, fieldPath, dotIsWildcard).None? <==>
            forall j :: 0 <= j < |metadata| ==> !Matches(Compile(metadata[j].path, dotIsWildcard), fieldPath)
  {
  }

  /** A stored path has no `[]`. */
  predicate NoBrackets(p: string)
  {
    forall i :: 0 <= i < |p| - 1 ==> !(p[i] == '[' && p[i + 1] == ']')
  }

  /** With literal dots, a stored path without `[]` matches exactly itself. */
  lemma {:induction false} PlainPathMatchesOnlyItself(p: string, s: string)
    requires NoBrackets(p)
    ensures Matches(Compile(p, false), s) <==> s == p
    decreases |p|
  {
    if p != [] {
      assert Compile(p, false) == [Char(p[0])] + Compile(p[1..], false);
      assert NoBrackets(p[1..]) by {
        forall i | 0 <= i < |p[1..]| - 1 ensures !(p[1..][i] == '[' && p[1..][i + 1] == ']') {
          assert p[1..][i] == p[i + 1] && p[1..][i + 1] == p[i + 2];
        }
      }
      if s != [] {
        PlainPathMatchesOnlyItself(p[1..], s[1..]);
        if s[0] == p[0] && s[1..] == p[1..] {
          assert s == [s[0]] + s[1..];
          assert p == [p[0]] + p[1..];
        }
      }
    }
  }

  /** The number of `[]` in a stored path, read left to right. */
  function BracketCount(p: string): nat
  {
    if p == [] then 0
    else if |p| >= 2 && p[0] == '[' && p[1] == ']' then 1 + BracketCount(p[2..])
    else BracketCount(p[1..])
  }

  /** `p` with its `[]`s filled, left to right, by the index strings `ds`. */
  function Fill(p: string, ds: seq<string>): string
  {
    if p == [] then []
    else if |p| >= 2 && p[0] == '[' && p[1] == ']' && ds != [] then "[" + ds[0] + "]" + Fill(p[2..], ds[1..])
    else [p[0]] + Fill(p[1..], ds)
  }

  /** A non-empty string of digits. */
  predicate IsIndex(d: string)
  {
    d != [] && forall i :: 0 <= i < |d| ==> IsDigit(d[i])
  }

  lemma {:induction false} DigitsMatch(d: string, rest: seq<Token>, s: string)
    requires IsIndex(d) && Matches(rest, s)
    ensures Matches([Digits] + rest, d + s)
    decreases |d|
  {
    var t := [Digits] + rest;
    assert t[1..] == rest;
    assert (d + s)[1..] == d[1..] + s;
    if |d| > 1 {
      DigitsMatch(d[1..], rest, s);
    } else {
      assert d[1..] + s == s;
    }
  }

  /**
   * A stored path matches every field path that fills each of its `[]` with
   * an index of one or more digits, whether its dots are wildcards (the code
   * as written) or literal.
   */
  lemma {:induction false} FilledPathMatches(p: string, ds: seq<string>, dotIsWildcard: bool)
    requires |ds| == BracketCount(p)
    requires forall i :: 0 <= i < |ds| ==> IsIndex(ds[i])
    ensures Matches(Compile(p, dotIsWildcard), Fill(p, ds))
    decreases |p|
  {
    if p != [] {
      if |p| >= 2 && p[0] == '[' && p[1] == ']' {
        FilledPathMatches(p[2..], ds[1..], dotIsWildcard);
        var rest := Compile(p[2..], dotIsWildcard);
        var tail := Fill(p[2..], ds[1..]);
        assert Matches([Char(']')] + rest, "]" + tail) by {
          assert ([Char(']')] + rest)[1..] == rest;
          assert ("]" + tail)[1..] == tail;
        }
        DigitsMatch(ds[0], [Char(']')] + rest, "]" + tail);
        var t := [Char('['), Digits, Char(']')] + rest;
        var s := "[" + ds[0] + "]" + tail;
        assert t[1..] == [Digits] + ([Char(']')] + rest);
        assert s[1..] == ds[0] + ("]" + tail);
      } else {
        FilledPathMatches(p[1..], ds, dotIsWildcard);
        assert (Compile(p, dotIsWildcard))[1..] == Compile(p[1..], dotIsWildcard);
        assert Fill(p, ds)[1..] == Fill(p[1..], ds);
      }
    }
  }

  /**
   * As written, a stored nested path `summary.score` also claims the unrelated
   * top-level field `summary_score`, because its dot is a regex wildcard; with
   * literal dots that field has no visualization.
   */
  lemma DotMatchesAnyCharacterAsWritten(style: Style)
    ensures FieldVisualizationAsWritten([Metadata("a.b", style, None)], "a_b") == Some(style)
    ensures FieldVisualization([Metadata("a.b", style, None)], "a_b") == None
  {
    var ms := [Metadata("a.b", style, None)];
    assert ms[0].path != "a_b";
    assert Matches(Compile("a.b", true), "a_b");
    PlainPathMatchesOnlyItself("a.b", "a_b");
  }

  // ---------------------------------------------------------------------------
  // inferVisualizationFromFieldName
  // ---------------------------------------------------------------------------

  const ScoreStyle := Typed(Custom, Lg, Bold, "text-blue-600")
  const TimeStyle := Typed(Custom, Sm, Medium, "text-gray-500")
  const TitleStyle := Typed(ParagraphHeadline, Lg, Semibold, "text-gray-800")
  const DescriptionStyle := Typed(Custom, Base, Normal, "text-gray-700")

  /** inferVisualizationFromFieldName: the first rule whose word the lower-cased name contains. */
  function InferFromFieldName(fieldName: string): Option<Style>
  {
    var lowerName := ToLower(fieldName);
    if Contains(lowerName, "score") || Contains(lowerName, "rating") then Some(ScoreStyle)
    else if Contains(lowerName, "timestamp") || Contains(lowerName, "time") then Some(TimeStyle)
    else if Contains(lowerName, "title") || Contains(lowerName, "headline") then Some(TitleStyle)
    else if Contains(lowerName, "description") || Contains(lowerName, "analysis") then Some(DescriptionStyle)
    else None
  }

  /** The inference rules as a table: the words each rule looks for and the style it gives. */
  const NameRules: seq<(seq<string>, Style)> := [
    (["score", "rating"], ScoreStyle),
    (["timestamp", "time"], TimeStyle),
    (["title", "headline"], TitleStyle),
    (["description", "analysis"], DescriptionStyle)
  ]

  /** `name` contains one of `words`. */
  predicate ContainsAny(name: string, words: seq<string>)
  {
    words != [] && (Contains(name, words[0]) || ContainsAny(name, words[1..]))
  }

  /** Index of the first rule of `rules` one of whose words `name` contains. */
  function FirstRule(rules: seq<(seq<string>, Style)>, name: string): (r: Option<nat>)
    ensures r.Some? ==> r.value < |rules| && ContainsAny(name, rules[r.value].0)
    ensures r.Some? ==> forall j :: 0 <= j < r.value ==> !ContainsAny(name, rules[j].0)
    ensures r.None? ==> forall j :: 0 <= j < |rules| ==> !ContainsAny(name, rules[j].0)
  {
    if rules == [] then None
    else if ContainsAny(name, rules[0].0) then Some(0)
    else
      var r := FirstRule(rules[1..], name);
      if r.Some? then Some(r.value + 1) else None
  }

  /** The inference takes the style of the first rule in table order that matches the lower-cased name. */
  lemma InferIsFirstRule(fieldName: string)
    ensures var k := FirstRule(NameRules, ToLower(fieldName));
            InferFromFieldName(fieldName) == if k.Some? then Some(NameRules[k.value].1) else None
  {
    var lower := ToLower(fieldName);
    ContainsEither(lower, "score", "rating");
    ContainsEither(lower, "timestamp", "time");
    ContainsEither(lower, "title", "headline");
    ContainsEither(lower, "description", "analysis");
    var k := FirstRule(NameRules, lower);
    if ContainsAny(lower, NameRules[0].0) {
      assert k == Some(0);
    } else if ContainsAny(lower, NameRules[1].0) {
      assert k == Some(1);
    } else if ContainsAny(lower, NameRules[2].0) {
      assert k == Some(2);
    } else if ContainsAny(lower, NameRules[3].0) {
      assert k == Some(3);
    } else {
      assert k == None;
    }
  }

  lemma ContainsEither(name: string, a: string, b: string)
    ensures ContainsAny(name, [a, b]) <==> Contains(name, a) || Contains(name, b)
  {
    assert [a, b][1..] == [b];
    assert [b][1..] == [];
    assert ContainsAny(name, [b]) <==> Contains(name, b) || ContainsAny(name, []);
    assert ContainsAny(name, [a, b]) <==> Contains(name, a) || ContainsAny(name, [b]);
  }

  /** Upper-casing then lower-casing is lower-casing. */
  lemma LowerOfUpper(s: string)
    ensures ToLower(ToUpper(s)) == ToLower(s)
  {
    forall i | 0 <= i < |s| ensures ToLowerChar(ToUpperChar(s[i])) == ToLowerChar(s[i]) { }
  }

  /** The inference does not depend on the case of the name. */
  lemma InferCaseInsensitive(fieldName: string)
    ensures InferFromFieldName(ToUpper(fieldName)) == InferFromFieldName(fieldName)
    ensures InferFromFieldName(ToLower(fieldName)) == InferFromFieldName(fieldName)
  {
    LowerOfUpper(fieldName);
    ToLowerIdempotent(fieldName);
  }
}

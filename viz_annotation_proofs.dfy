/**
 * Properties of the schema annotation pass of add_viz_annotations.py: the
 * rewrite only ever writes `x-viz` entries, and running it a second time on
 * its own output changes nothing.
 */
module VizAnnotationProofs {
  import opened Wrappers
  import opened Json
  import opened Strings
  import opened VizAnnotations

  // ---------------------------------------------------------------------------
  // The rule table
  // ---------------------------------------------------------------------------

  /** The first rule wins: `final_scorecard` contains `_score`. */
  lemma ScorecardRule()
    ensures RuleFor("final_scorecard") == SetViz(ScoreViz)
  {
    assert OccursAt("final_scorecard", "_score", 5);
    ContainsIff("final_scorecard", "_score");
  }

  /** The score rule comes before the `section_` prefix rule. */
  lemma SectionScoreRule()
    ensures RuleFor("section_score") == SetViz(ScoreViz)
  {
    assert OccursAt("section_score", "_score", 7);
    ContainsIff("section_score", "_score");
  }

  /** A `section_` key in which no underscore starts `_s`, `_r` or `_t` gets the section headline. */
  lemma SectionRuleFor(key: string)
    requires "section_" <= key
    requires forall j :: 0 <= j < |key| - 1 && key[j] == '_' ==> key[j + 1] != 's' && key[j + 1] != 'r' && key[j + 1] != 't'
    ensures RuleFor(key) == SetViz(SectionViz)
  {
    NotContainsByPair(key, "_score");
    NotContainsByPair(key, "_rating");
    NotContainsByPair(key, "_timestamp");
    NotContainsByPair(key, "_time");
  }

  lemma SectionRule()
    ensures RuleFor("section_overview") == SetViz(SectionViz)
  {
    SectionRuleFor("section_overview");
  }

  /**
   * A key that does not start with `section_` and in which no underscore is
   * followed by the second letter of any pattern gets no style: only
   * `action_plan` gets the items rule, and every other such key no rule.
   */
  lemma UnstyledRuleFor(key: string)
    requires !("section_" <= key)
    requires forall j :: 0 <= j < |key| - 1 && key[j] == '_' ==>
      key[j + 1] !in {'s', 'r', 't', 'h', 'a', 'd', 'v'}
    ensures RuleFor(key) == if key == "action_plan" then MarkItems else NoRule
  {
    NotContainsByPair(key, "_score");
    NotContainsByPair(key, "_rating");
    NotContainsByPair(key, "_timestamp");
    NotContainsByPair(key, "_time");
    NotContainsByPair(key, "_title");
    NotContainsByPair(key, "_headline");
    NotContainsByPair(key, "_analysis");
    NotContainsByPair(key, "_description");
    NotContainsByPair(key, "_verdict");
  }

  lemma ActionPlanRule()
    ensures RuleFor("action_plan") == MarkItems
  {
    assert "action_plan"[0] != "section_"[0];
    UnstyledRuleFor("action_plan");
  }

  /**
   * The action_plan rule touches only an array whose items are an object,
   * and then writes `bullet_point` into the items, not into the array: the
   * array's own keys other than `items` read as before.
   */
  lemma MarkItemsOnlyItems(prop: Json, k: string)
    requires prop.JObj? && ApplyRule(MarkItems, prop).Ok?
    ensures var items := GetOr(prop.entries, "items", JObj([]));
      !(TypeIs(prop, "array") && TypeIs(items, "object")) ==> ApplyRule(MarkItems, prop) == Ok(prop)
    ensures var items := GetOr(prop.entries, "items", JObj([]));
      var p := ApplyRule(MarkItems, prop).value;
      TypeIs(prop, "array") && TypeIs(items, "object") ==>
        && p.JObj?
        && Get(p.entries, "items") == Some(JObj(SetKey(items.entries, XViz, BulletViz)))
        && Get(GetOr(p.entries, "items", JObj([])).entries, XViz) == Some(BulletViz)
        && (k != "items" ==> Get(p.entries, k) == Get(prop.entries, k))
  {
    var items := GetOr(prop.entries, "items", JObj([]));
    if TypeIs(prop, "array") && TypeIs(items, "object") {
      var marked := JObj(SetKey(items.entries, XViz, BulletViz));
      GetSetKey(prop.entries, "items", marked, k);
      GetSetKey(prop.entries, "items", marked, "items");
      GetSetKey(items.entries, XViz, BulletViz, XViz);
    }
  }

  /**
   * The descent does not depend on the rule: whatever the key, an object
   * property ends up with its `properties` annotated.
   */
  lemma DescentWhateverRule(key: string, prop: Json)
    requires AnnotatedProperty(key, prop).Ok? && TypeIs(prop, "object")
    requires Get(prop.entries, "properties").Some?
    ensures var props := Get(prop.entries, "properties").value;
      && AnnotatedProps(props).Ok?
      && AnnotatedProperty(key, prop).value.JObj?
      && Get(AnnotatedProperty(key, prop).value.entries, "properties") == Some(AnnotatedProps(props).value)
  {
    var rule := RuleFor(key);
    RuleKeepsShape(rule, prop);
    var p := ApplyRule(rule, prop).value;
    var props := Get(prop.entries, "properties").value;
    GetSetKey(p.entries, "properties", AnnotatedProps(props).value, "properties");
  }

  /** The rule stage keeps object items object items. */
  lemma ItemsStayObjects(rule: Rule, prop: Json)
    requires ApplyRule(rule, prop).Ok? && prop.JObj?
    requires TypeIs(GetOr(prop.entries, "items", JObj([])), "object")
    ensures ApplyRule(rule, prop).value.JObj?
    ensures TypeIs(GetOr(ApplyRule(rule, prop).value.entries, "items", JObj([])), "object")
  {
    var items := GetOr(prop.entries, "items", JObj([]));
    match rule
    case SetViz(v) =>
      GetSetKey(prop.entries, XViz, v, "items");
    case MarkItems =>
      if TypeIs(prop, "array") {
        var marked := JObj(SetKey(items.entries, XViz, BulletViz));
        GetSetKey(prop.entries, "items", marked, "items");
        GetSetKey(items.entries, XViz, BulletViz, "type");
      }
    case NoRule =>
  }

  /** The same for the object items of an array property. */
  lemma ItemsDescentWhateverRule(key: string, prop: Json)
    requires AnnotatedProperty(key, prop).Ok? && TypeIs(prop, "array")
    requires var items := GetOr(prop.entries, "items", JObj([]));
      TypeIs(items, "object") && Get(items.entries, "properties").Some?
    ensures var props := Get(GetOr(prop.entries, "items", JObj([])).entries, "properties").value;
      && AnnotatedProps(props).Ok?
      && AnnotatedProperty(key, prop).value.JObj?
      && var items := GetOr(AnnotatedProperty(key, prop).value.entries, "items", JObj([]));
      && items.JObj?
      && Get(items.entries, "properties") == Some(AnnotatedProps(props).value)
  {
    var rule := RuleFor(key);
    RuleKeepsShape(rule, prop);
    ItemsStayObjects(rule, prop);
    var p := ApplyRule(rule, prop).value;
    assert TypeIs(p, "array") && !TypeIs(p, "object");
    var items := GetOr(p.entries, "items", JObj([]));
    var original := Get(prop.entries, "items").value;
    var props := Get(original.entries, "properties").value;
    assert Get(items.entries, "properties") == Some(props);
    var newItems := Reannotate(items, original).value;
    assert AnnotatedProperty(key, prop) == Ok(JObj(SetKey(p.entries, "items", newItems)));
    GetSetKey(items.entries, "properties", AnnotatedProps(props).value, "properties");
    GetSetKey(p.entries, "items", newItems, "items");
  }

  /**
   * A property whose name selects a style keeps the written `x-viz` through
   * the descent: the rewritten property reads that style under `x-viz`.
   */
  lemma SetVizWritten(key: string, prop: Json, v: Json)
    requires RuleFor(key) == SetViz(v) && AnnotatedProperty(key, prop).Ok?
    ensures AnnotatedProperty(key, prop).value.JObj?
    ensures Get(AnnotatedProperty(key, prop).value.entries, XViz) == Some(v)
  {
    RuleKeepsShape(SetViz(v), prop);
    var p := ApplyRule(SetViz(v), prop).value;
    GetSetKey(prop.entries, XViz, v, XViz);
    if TypeIs(p, "object") {
      ReannotateGet(p, prop, XViz);
    } else if TypeIs(p, "array") {
      var items := GetOr(p.entries, "items", JObj([]));
      if TypeIs(items, "object") {
        var newItems := Reannotate(items, Get(prop.entries, "items").value).value;
        GetSetKey(p.entries, "items", newItems, XViz);
      }
    }
  }

  /**
   * The action_plan rule on an array of object items: after the descent the
   * items read `bullet_point` under `x-viz`.
   */
  lemma MarkItemsWritten(key: string, prop: Json)
    requires RuleFor(key) == MarkItems && AnnotatedProperty(key, prop).Ok?
    requires TypeIs(prop, "array") && TypeIs(GetOr(prop.entries, "items", JObj([])), "object")
    ensures AnnotatedProperty(key, prop).value.JObj?
    ensures var items := GetOr(AnnotatedProperty(key, prop).value.entries, "items", JObj([]));
      items.JObj? && Get(items.entries, XViz) == Some(BulletViz)
  {
    RuleKeepsShape(MarkItems, prop);
    ItemsStayObjects(MarkItems, prop);
    MarkItemsOnlyItems(prop, "type");
    var p := ApplyRule(MarkItems, prop).value;
    assert TypeIs(p, "array") && !TypeIs(p, "object");
    var marked := GetOr(p.entries, "items", JObj([]));
    var original := Get(prop.entries, "items").value;
    var newItems := Reannotate(marked, original).value;
    assert AnnotatedProperty(key, prop) == Ok(JObj(SetKey(p.entries, "items", newItems)));
    ReannotateGet(marked, original, XViz);
    GetSetKey(p.entries, "items", newItems, "items");
  }

  /** One step of the loop over `properties.items()`. */
  lemma AnnotatedFromStep(props: Json, i: nat)
    requires props.JObj? && i < |props.entries| && AnnotatedFrom(props, i).Ok?
    ensures AnnotatedProperty(props.entries[i].0, props.entries[i].1).Ok? && AnnotatedFrom(props, i + 1).Ok?
    ensures AnnotatedFrom(props, i).value
            == [(props.entries[i].0, AnnotatedProperty(props.entries[i].0, props.entries[i].1).value)]
               + AnnotatedFrom(props, i + 1).value
  {
  }

  /**
   * The loop over `properties.items()` keeps every key in its place and puts
   * the rewrite of the j-th property at index j.
   */
  lemma {:induction false} AnnotatedFromAt(props: Json, i: nat, j: nat)
    requires props.JObj? && i <= j < |props.entries|
    requires AnnotatedFrom(props, i).Ok?
    ensures |AnnotatedFrom(props, i).value| == |props.entries| - i
    ensures AnnotatedProperty(props.entries[j].0, props.entries[j].1).Ok?
    ensures AnnotatedFrom(props, i).value[j - i]
            == (props.entries[j].0, AnnotatedProperty(props.entries[j].0, props.entries[j].1).value)
    decreases |props.entries| - i
  {
    AnnotatedFromStep(props, i);
    var here := (props.entries[i].0, AnnotatedProperty(props.entries[i].0, props.entries[i].1).value);
    var rest := AnnotatedFrom(props, i + 1).value;
    assert AnnotatedFrom(props, i).value == [here] + rest;
    if i + 1 < |props.entries| {
      AnnotatedFromAt(props, i + 1, if i < j then j else i + 1);
    } else {
      assert rest == [];
    }
    if i < j {
      assert ([here] + rest)[j - i] == rest[j - (i + 1)];
    }
  }

  /** The rewrite of a dict with `properties` replaces them by the rewritten ones. */
  lemma AnnotatedProperties(node: Json)
    requires node.JObj? && Get(node.entries, "properties").Some? && Annotated(node).Ok?
    ensures AnnotatedProps(Get(node.entries, "properties").value).Ok?
    ensures Annotated(node).value.JObj?
    ensures Get(Annotated(node).value.entries, "properties")
            == Some(AnnotatedProps(Get(node.entries, "properties").value).value)
  {
    var q := AnnotatedProps(Get(node.entries, "properties").value).value;
    GetSetKey(node.entries, "properties", q, "properties");
  }

  /** The rewritten properties: the j-th keeps its name and is the rewrite of the j-th property. */
  lemma AnnotatedPropsAt(props: Json, j: nat)
    requires props.JObj? && j < |props.entries| && AnnotatedProps(props).Ok?
    ensures AnnotatedProps(props).value.JObj?
    ensures |AnnotatedProps(props).value.entries| == |props.entries|
    ensures AnnotatedProperty(props.entries[j].0, props.entries[j].1).Ok?
    ensures AnnotatedProps(props).value.entries[j]
            == (props.entries[j].0, AnnotatedProperty(props.entries[j].0, props.entries[j].1).value)
  {
    AnnotatedFromAt(props, 0, j);
  }

  /**
   * On a whole schema: a top-level property whose name selects a style is,
   * after the rewrite, still in its place under the same name and reads that
   * style under `x-viz`.
   */
  lemma SchemaVizWritten(node: Json, j: nat, v: Json)
    requires node.JObj? && Get(node.entries, "properties").Some?
    requires var props := Get(node.entries, "properties").value;
      props.JObj? && j < |props.entries| && RuleFor(props.entries[j].0) == SetViz(v)
    requires Annotated(node).Ok?
    ensures Annotated(node).value.JObj?
    ensures var props := Get(node.entries, "properties").value;
      var out := Get(Annotated(node).value.entries, "properties");
      && out.Some? && out.value.JObj? && |out.value.entries| == |props.entries|
      && out.value.entries[j].0 == props.entries[j].0
      && out.value.entries[j].1.JObj? && Get(out.value.entries[j].1.entries, XViz) == Some(v)
  {
    var props := Get(node.entries, "properties").value;
    AnnotatedProperties(node);
    AnnotatedPropsAt(props, j);
    SetVizWritten(props.entries[j].0, props.entries[j].1, v);
  }

  // ---------------------------------------------------------------------------
  // Only `x-viz` entries are written
  // ---------------------------------------------------------------------------

  /** A tree with the `x-viz` entries of all its dicts removed. */
  function Strip(j: Json): Json
    decreases j, 1
  {
    match j
    case JArr(xs) => JArr(StripItems(j, |xs|))
    case JObj(es) => JObj(StripUpTo(j, |es|))
    case _ => j
  }

  function StripItems(j: Json, n: nat): seq<Json>
    requires j.JArr? && n <= |j.items|
    decreases j, 0, n
  {
    if n == 0 then [] else StripItems(j, n - 1) + [Strip(j.items[n - 1])]
  }

  function StripUpTo(j: Json, n: nat): seq<(string, Json)>
    requires j.JObj? && n <= |j.entries|
    decreases j, 0, n
  {
    if n == 0 then []
    else
      var e := j.entries[n - 1];
      StripUpTo(j, n - 1) + (if e.0 == XViz then [] else [(e.0, Strip(e.1))])
  }

  /** The entries of a dict with the `x-viz` entries removed, at every depth. */
  function StripEntries(es: seq<(string, Json)>): seq<(string, Json)>
  {
    StripUpTo(JObj(es), |es|)
  }

  lemma {:induction false} StripUpToPrefix(x: seq<(string, Json)>, y: seq<(string, Json)>, n: nat)
    requires n <= |x| && n <= |y| && x[..n] == y[..n]
    ensures StripUpTo(JObj(x), n) == StripUpTo(JObj(y), n)
  {
    if n > 0 {
      assert x[..n - 1] == x[..n][..n - 1] && y[..n - 1] == y[..n][..n - 1];
      assert x[n - 1] == x[..n][n - 1] && y[n - 1] == y[..n][n - 1];
      StripUpToPrefix(x, y, n - 1);
    }
  }

  lemma StripEntriesSnoc(es: seq<(string, Json)>, e: (string, Json))
    ensures StripEntries(es + [e]) == StripEntries(es) + (if e.0 == XViz then [] else [(e.0, Strip(e.1))])
  {
    assert (es + [e])[..|es|] == es[..|es|];
    StripUpToPrefix(es + [e], es, |es|);
  }

  lemma {:induction false} StripEntriesAppend(a: seq<(string, Json)>, b: seq<(string, Json)>)
    ensures StripEntries(a + b) == StripEntries(a) + StripEntries(b)
    decreases |b|
  {
    if b == [] {
      assert a + b == a;
      assert StripEntries(b) == [];
    } else {
      var b' := b[..|b| - 1];
      var e := b[|b| - 1];
      assert b == b' + [e];
      assert a + b == (a + b') + [e];
      StripEntriesAppend(a, b');
      StripEntriesSnoc(a + b', e);
      StripEntriesSnoc(b', e);
    }
  }

  lemma StripEntriesCons(e: (string, Json), es: seq<(string, Json)>)
    ensures StripEntries([e] + es) == (if e.0 == XViz then [] else [(e.0, Strip(e.1))]) + StripEntries(es)
  {
    StripEntriesAppend([e], es);
    StripEntriesSnoc([], e);
    assert [] + [e] == [e];
    assert StripEntries([]) == [];
  }

  /** Writing `x-viz` is invisible once `x-viz` entries are removed. */
  lemma {:induction false} StripSetViz(es: seq<(string, Json)>, v: Json)
    ensures StripEntries(SetKey(es, XViz, v)) == StripEntries(es)
  {
    if es == [] {
      StripEntriesCons((XViz, v), []);
      assert SetKey(es, XViz, v) == [(XViz, v)] + [];
      assert StripEntries(es) == [];
    } else if es[0].0 == XViz {
      StripEntriesCons((XViz, v), es[1..]);
      StripEntriesCons(es[0], es[1..]);
      assert es == [es[0]] + es[1..];
    } else {
      StripSetViz(es[1..], v);
      StripEntriesCons(es[0], SetKey(es[1..], XViz, v));
      StripEntriesCons(es[0], es[1..]);
      assert es == [es[0]] + es[1..];
    }
  }

  /** Replacing a present key's value by one equal to it up to `x-viz` entries is invisible once they are removed. */
  lemma {:induction false} StripSetKey(es: seq<(string, Json)>, k: string, v: Json)
    requires k != XViz && k in Keys(es) && Strip(v) == Strip(Get(es, k).value)
    ensures StripEntries(SetKey(es, k, v)) == StripEntries(es)
  {
    assert Keys(es) == [es[0].0] + Keys(es[1..]);
    assert es == [es[0]] + es[1..];
    if es[0].0 == k {
      StripEntriesCons((k, v), es[1..]);
      StripEntriesCons(es[0], es[1..]);
    } else {
      StripSetKey(es[1..], k, v);
      StripEntriesCons(es[0], SetKey(es[1..], k, v));
      StripEntriesCons(es[0], es[1..]);
    }
  }

  /** The rule stage writes nothing but `x-viz`. */
  lemma RuleStrips(rule: Rule, prop: Json)
    requires ApplyRule(rule, prop).Ok?
    ensures Strip(ApplyRule(rule, prop).value) == Strip(prop)
  {
    match rule
    case SetViz(v) =>
      StripSetViz(prop.entries, v);
    case MarkItems =>
      MarkItemsStrips(prop);
    case NoRule =>
  }

  lemma MarkItemsStrips(prop: Json)
    requires ApplyRule(MarkItems, prop).Ok?
    ensures Strip(ApplyRule(MarkItems, prop).value) == Strip(prop)
  {
    if TypeIs(prop, "array") {
      var items := GetOr(prop.entries, "items", JObj([]));
      if TypeIs(items, "object") {
        assert "items" in Keys(prop.entries);
        StripSetViz(items.entries, BulletViz);
        assert Strip(JObj(SetKey(items.entries, XViz, BulletViz))) == JObj(StripEntries(SetKey(items.entries, XViz, BulletViz)));
        assert Strip(items) == JObj(StripEntries(items.entries));
        StripSetKey(prop.entries, "items", JObj(SetKey(items.entries, XViz, BulletViz)));
      }
    }
  }

  lemma {:induction false} ReannotateStrips(node: Json, like: Json)
    requires node.JObj? && like.JObj? && Get(node.entries, "properties") == Get(like.entries, "properties")
    requires Reannotate(node, like).Ok?
    ensures Strip(Reannotate(node, like).value) == Strip(node)
    decreases like, 2
  {
    match Get(like.entries, "properties")
    case None =>
    case Some(props) =>
      AnnotatedPropsStrips(props);
      StripSetKey(node.entries, "properties", AnnotatedProps(props).value);
  }

  lemma {:induction false} AnnotatedPropsStrips(props: Json)
    requires AnnotatedProps(props).Ok?
    ensures Strip(AnnotatedProps(props).value) == Strip(props)
    decreases props, 1
  {
    EntriesStrip(props, 0);
    assert props.entries[0..] == props.entries;
  }

  /** The loop from property `i` on writes nothing but `x-viz`. */
  lemma {:induction false} EntriesStrip(props: Json, i: nat)
    requires props.JObj? && i <= |props.entries|
    requires AnnotatedFrom(props, i).Ok?
    ensures StripEntries(AnnotatedFrom(props, i).value) == StripEntries(props.entries[i..])
    decreases props, 0, |props.entries| - i
  {
    if i == |props.entries| {
      assert props.entries[i..] == [];
    } else {
      var e := props.entries[i];
      assert e in props.entries;
      AnnotatedFromStep(props, i);
      var p := AnnotatedProperty(e.0, e.1).value;
      PropertyStrips(e.0, e.1);
      EntriesStrip(props, i + 1);
      StripEntriesCons((e.0, p), AnnotatedFrom(props, i + 1).value);
      StripEntriesCons(e, props.entries[i + 1..]);
      assert props.entries[i..] == [e] + props.entries[i + 1..];
    }
  }

  lemma {:induction false} PropertyStrips(key: string, prop: Json)
    requires AnnotatedProperty(key, prop).Ok?
    ensures Strip(AnnotatedProperty(key, prop).value) == Strip(prop)
    decreases prop, 3
  {
    var rule := RuleFor(key);
    RuleKeepsShape(rule, prop);
    RuleStrips(rule, prop);
    var p := ApplyRule(rule, prop).value;
    if TypeIs(p, "object") {
      ReannotateStrips(p, prop);
    } else if TypeIs(p, "array") {
      ItemsStrips(p, prop);
    }
  }

  /** The descent into the object items of an array writes nothing but `x-viz`. */
  lemma {:induction false} ItemsStrips(p: Json, prop: Json)
    requires p.JObj? && prop.JObj?
    requires var items := GetOr(p.entries, "items", JObj([]));
      TypeIs(items, "object") ==>
        && Get(prop.entries, "items").Some? && TypeIs(Get(prop.entries, "items").value, "object")
        && Get(items.entries, "properties") == Get(Get(prop.entries, "items").value.entries, "properties")
    requires var items := GetOr(p.entries, "items", JObj([]));
      TypeIs(items, "object") ==> Reannotate(items, Get(prop.entries, "items").value).Ok?
    ensures var items := GetOr(p.entries, "items", JObj([]));
      TypeIs(items, "object") ==>
        Strip(JObj(SetKey(p.entries, "items", Reannotate(items, Get(prop.entries, "items").value).value))) == Strip(p)
    decreases prop, 2
  {
    var items := GetOr(p.entries, "items", JObj([]));
    if TypeIs(items, "object") {
      var original := Get(prop.entries, "items").value;
      assert ("items", original) in prop.entries;
      ReannotateStrips(items, original);
      StripSetKey(p.entries, "items", Reannotate(items, original).value);
    }
  }

  /** add_viz_annotations writes only `x-viz` keys: every other key and value of the tree is unchanged. */
  lemma AnnotatedOnlyWritesViz(node: Json)
    requires Annotated(node).Ok?
    ensures Strip(Annotated(node).value) == Strip(node)
  {
    if node.JObj? {
      ReannotateStrips(node, node);
    }
  }

  // ---------------------------------------------------------------------------
  // Running the rewrite twice gives the tree it gives once
  // ---------------------------------------------------------------------------

  /** Applying the rule stage to its own output changes nothing. */
  lemma RuleIdem(rule: Rule, prop: Json)
    requires ApplyRule(rule, prop).Ok?
    ensures ApplyRule(rule, ApplyRule(rule, prop).value) == ApplyRule(rule, prop)
  {
    var p := ApplyRule(rule, prop).value;
    match rule
    case SetViz(v) =>
      GetSetKey(prop.entries, XViz, v, XViz);
      SetKeySame(p.entries, XViz);
    case MarkItems =>
      MarkItemsIdem(prop);
    case NoRule =>
  }

  lemma MarkItemsIdem(prop: Json)
    requires ApplyRule(MarkItems, prop).Ok?
    ensures ApplyRule(MarkItems, ApplyRule(MarkItems, prop).value) == ApplyRule(MarkItems, prop)
  {
    var p := ApplyRule(MarkItems, prop).value;
    if TypeIs(prop, "array") {
      var items := GetOr(prop.entries, "items", JObj([]));
      if TypeIs(items, "object") {
        var marked := JObj(SetKey(items.entries, XViz, BulletViz));
        GetSetKey(prop.entries, "items", marked, "type");
        GetSetKey(prop.entries, "items", marked, "items");
        GetSetKey(items.entries, XViz, BulletViz, "type");
        GetSetKey(items.entries, XViz, BulletViz, XViz);
        SetKeySame(marked.entries, XViz);
        SetKeySame(p.entries, "items");
      }
    }
  }

  /** What the descent changes in a dict: only its `properties`. */
  lemma ReannotateGet(node: Json, like: Json, k: string)
    requires node.JObj? && like.JObj? && Get(node.entries, "properties") == Get(like.entries, "properties")
    requires Reannotate(node, like).Ok? && k != "properties"
    ensures Reannotate(node, like).value.JObj?
    ensures Get(Reannotate(node, like).value.entries, k) == Get(node.entries, k)
  {
    match Get(like.entries, "properties")
    case None =>
    case Some(props) =>
      GetSetKey(node.entries, "properties", AnnotatedProps(props).value, k);
  }

  /** A dict the descent produced is a fixed point of the descent. */
  lemma {:induction false} ReannotateIdem(node: Json, like: Json)
    requires node.JObj? && like.JObj? && Get(node.entries, "properties") == Get(like.entries, "properties")
    requires Reannotate(node, like).Ok?
    ensures Reannotate(node, like).value.JObj?
    ensures Reannotate(Reannotate(node, like).value, Reannotate(node, like).value) == Reannotate(node, like)
    decreases like, 2
  {
    match Get(like.entries, "properties")
    case None =>
    case Some(props) =>
      var newProps := AnnotatedProps(props).value;
      var r := SetKey(node.entries, "properties", newProps);
      GetSetKey(node.entries, "properties", newProps, "properties");
      PropsIdem(props);
      SetKeyTwice(node.entries, "properties", newProps, newProps);
      assert Reannotate(JObj(r), JObj(r)) == Ok(JObj(SetKey(r, "properties", newProps)));
  }

  /** Annotating annotated properties gives them back unchanged. */
  lemma PropsIdem(props: Json)
    requires AnnotatedProps(props).Ok?
    ensures AnnotatedProps(AnnotatedProps(props).value) == AnnotatedProps(props)
    decreases props, 1
  {
    var es := AnnotatedFrom(props, 0).value;
    EntriesIdem(props, JObj(es), 0);
    assert es[0..] == es;
  }

  /**
   * The loop from property `k` on, run over a dict whose entries from `k`
   * on are what the loop produced, reproduces them.
   */
  lemma {:induction false} EntriesIdem(props: Json, q: Json, k: nat)
    requires props.JObj? && q.JObj? && k <= |props.entries| && k <= |q.entries|
    requires AnnotatedFrom(props, k).Ok? && q.entries[k..] == AnnotatedFrom(props, k).value
    ensures AnnotatedFrom(q, k) == Ok(q.entries[k..])
    decreases props, 0, |props.entries| - k
  {
    if k == |props.entries| {
      assert |q.entries[k..]| == 0;
    } else {
      var e := props.entries[k];
      assert e in props.entries;
      var p := AnnotatedProperty(e.0, e.1).value;
      var rest := AnnotatedFrom(props, k + 1).value;
      assert q.entries[k..] == [(e.0, p)] + rest;
      assert q.entries[k] == q.entries[k..][0] == (e.0, p);
      assert q.entries[k + 1..] == q.entries[k..][1..] == rest;
      PropertyIdem(e.0, e.1);
      EntriesIdem(props, q, k + 1);
      assert q.entries[k..] == [q.entries[k]] + q.entries[k + 1..];
    }
  }

  /** Annotating an annotated property gives it back unchanged. */
  lemma {:induction false} PropertyIdem(key: string, prop: Json)
    requires AnnotatedProperty(key, prop).Ok?
    ensures AnnotatedProperty(key, AnnotatedProperty(key, prop).value) == AnnotatedProperty(key, prop)
    decreases prop, 4
  {
    var rule := RuleFor(key);
    RuleKeepsShape(rule, prop);
    RuleIdem(rule, prop);
    var p := ApplyRule(rule, prop).value;
    if TypeIs(p, "object") {
      ObjectIdem(rule, p, prop);
    } else if TypeIs(p, "array") {
      ArrayIdem(rule, p, prop);
    }
  }

  /** PropertyIdem for a property that is an object after the rule stage. */
  lemma {:induction false} ObjectIdem(rule: Rule, p: Json, prop: Json)
    requires p.JObj? && prop.JObj? && TypeIs(p, "object")
    requires Get(p.entries, "properties") == Get(prop.entries, "properties")
    requires ApplyRule(rule, p) == Ok(p)
    requires Reannotate(p, prop).Ok?
    ensures var q := Reannotate(p, prop).value;
      q.JObj? && ApplyRule(rule, q) == Ok(q) && TypeIs(q, "object") && Reannotate(q, q) == Ok(q)
    decreases prop, 3
  {
    var q := Reannotate(p, prop).value;
    ReannotateIdem(p, prop);
    ReannotateGet(p, prop, "type");
    ReannotateGet(p, prop, XViz);
    RuleStable(rule, p, q);
  }

  /** A rule that leaves `p` as it is leaves as it is a dict with the same type, `x-viz` and items. */
  lemma RuleStable(rule: Rule, p: Json, q: Json)
    requires p.JObj? && q.JObj? && ApplyRule(rule, p) == Ok(p)
    requires Get(q.entries, "type") == Get(p.entries, "type") && Get(q.entries, XViz) == Get(p.entries, XViz)
    requires TypeIs(p, "array") ==> Get(q.entries, "items") == Get(p.entries, "items")
    ensures ApplyRule(rule, q) == Ok(q)
  {
    match rule
    case SetViz(v) =>
      GetSetKey(p.entries, XViz, v, XViz);
      SetKeySame(q.entries, XViz);
    case MarkItems =>
      if TypeIs(p, "array") {
        var items := GetOr(p.entries, "items", JObj([]));
        if TypeIs(items, "object") {
          var marked := JObj(SetKey(items.entries, XViz, BulletViz));
          GetSetKey(p.entries, "items", marked, "items");
          SetKeySame(q.entries, "items");
        }
      }
    case NoRule =>
  }

  /** PropertyIdem for a property that is an array after the rule stage. */
  lemma {:induction false} ArrayIdem(rule: Rule, p: Json, prop: Json)
    requires p.JObj? && prop.JObj? && TypeIs(p, "array")
    requires ApplyRule(rule, p) == Ok(p)
    requires var items := GetOr(p.entries, "items", JObj([]));
      TypeIs(items, "object") ==>
        && Get(prop.entries, "items").Some? && TypeIs(Get(prop.entries, "items").value, "object")
        && Get(items.entries, "properties") == Get(Get(prop.entries, "items").value.entries, "properties")
    requires var items := GetOr(p.entries, "items", JObj([]));
      TypeIs(items, "object") ==> Reannotate(items, Get(prop.entries, "items").value).Ok?
    ensures var items := GetOr(p.entries, "items", JObj([]));
      TypeIs(items, "object") ==>
        var q := JObj(SetKey(p.entries, "items", Reannotate(items, Get(prop.entries, "items").value).value));
        && ApplyRule(rule, q) == Ok(q) && TypeIs(q, "array")
        && var items' := GetOr(q.entries, "items", JObj([]));
        && TypeIs(items', "object") && Get(q.entries, "items") == Some(items')
        && Reannotate(items', items') == Ok(items')
        && SetKey(q.entries, "items", items') == q.entries
    decreases prop, 3
  {
    var items := GetOr(p.entries, "items", JObj([]));
    if TypeIs(items, "object") {
      var original := Get(prop.entries, "items").value;
      assert ("items", original) in prop.entries;
      ReannotateIdem(items, original);
      var newItems := Reannotate(items, original).value;
      ReannotateGet(items, original, "type");
      ReannotateGet(items, original, XViz);
      var q := JObj(SetKey(p.entries, "items", newItems));
      GetSetKey(p.entries, "items", newItems, "type");
      GetSetKey(p.entries, "items", newItems, "items");
      GetSetKey(p.entries, "items", newItems, XViz);
      SetKeyTwice(p.entries, "items", newItems, newItems);
      RuleStableItems(rule, p, q, newItems);
    }
  }

  /** RuleStable for an array whose object items were annotated. */
  lemma RuleStableItems(rule: Rule, p: Json, q: Json, newItems: Json)
    requires p.JObj? && q.JObj? && ApplyRule(rule, p) == Ok(p) && TypeIs(p, "array")
    requires TypeIs(GetOr(p.entries, "items", JObj([])), "object")
    requires Get(q.entries, "type") == Get(p.entries, "type") && Get(q.entries, XViz) == Get(p.entries, XViz)
    requires Get(q.entries, "items") == Some(newItems) && TypeIs(newItems, "object")
    requires Get(newItems.entries, XViz) == Get(GetOr(p.entries, "items", JObj([])).entries, XViz)
    ensures ApplyRule(rule, q) == Ok(q)
  {
    match rule
    case SetViz(v) =>
      GetSetKey(p.entries, XViz, v, XViz);
      SetKeySame(q.entries, XViz);
    case MarkItems =>
      var items := GetOr(p.entries, "items", JObj([]));
      var marked := JObj(SetKey(items.entries, XViz, BulletViz));
      GetSetKey(p.entries, "items", marked, "items");
      GetSetKey(items.entries, XViz, BulletViz, XViz);
      SetKeySame(newItems.entries, XViz);
      SetKeySame(q.entries, "items");
    case NoRule =>
  }

  /** Running add_viz_annotations on its own output changes nothing. */
  lemma AnnotatedIdempotent(node: Json)
    requires Annotated(node).Ok?
    ensures Annotated(Annotated(node).value) == Annotated(node)
  {
    if node.JObj? {
      ReannotateIdem(node, node);
    }
  }

  // ---------------------------------------------------------------------------
  // process_schema_file
  // ---------------------------------------------------------------------------

  /**
   * A dict with a "schema" key has exactly that entry annotated, and fails
   * exactly when annotating it fails; every other key reads as before.
   */
  lemma ProcessSchemaNested(data: Json, k: string)
    requires data.JObj? && "schema" in Keys(data.entries)
    ensures var schema := Get(data.entries, "schema").value;
      ProcessSchema(data).Ok? <==> Annotated(schema).Ok?
    ensures var schema := Get(data.entries, "schema").value;
      ProcessSchema(data).Ok? ==>
        && ProcessSchema(data).value.JObj?
        && Get(ProcessSchema(data).value.entries, "schema") == Some(Annotated(schema).value)
        && (k != "schema" ==> Get(ProcessSchema(data).value.entries, k) == Get(data.entries, k))
  {
    var schema := Get(data.entries, "schema").value;
    if Annotated(schema).Ok? {
      GetSetKey(data.entries, "schema", Annotated(schema).value, k);
      GetSetKey(data.entries, "schema", Annotated(schema).value, "schema");
    }
  }

  /** process_schema_file writes only `x-viz` keys into the document. */
  lemma ProcessSchemaOnlyWritesViz(data: Json)
    requires ProcessSchema(data).Ok?
    ensures Strip(ProcessSchema(data).value) == Strip(data)
  {
    if data.JObj? && "schema" in Keys(data.entries) {
      var schema := Get(data.entries, "schema").value;
      AnnotatedOnlyWritesViz(schema);
      StripSetKey(data.entries, "schema", Annotated(schema).value);
    } else {
      AnnotatedOnlyWritesViz(data);
    }
  }

  /** Running process_schema_file again on a document it produced changes nothing. */
  lemma ProcessSchemaIdempotent(data: Json)
    requires ProcessSchema(data).Ok?
    ensures ProcessSchema(ProcessSchema(data).value) == ProcessSchema(data)
  {
    if data.JObj? && "schema" in Keys(data.entries) {
      var schema := Get(data.entries, "schema").value;
      var annotated := Annotated(schema).value;
      AnnotatedIdempotent(schema);
      GetSetKey(data.entries, "schema", annotated, "schema");
      SetKeyTwice(data.entries, "schema", annotated, annotated);
    } else if data.JObj? {
      AnnotatedIdempotent(data);
      ReannotateGet(data, data, "schema");
    }
  }
}


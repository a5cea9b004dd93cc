/**
 * The client-side prompt cache: the listed prompts (list items, in order),
 * the fully loaded prompts by id, and the loading / error / source state of
 * the list query.  The state setters of the provider become assignments to
 * the fields of one object; the server fetch of a single prompt is a
 * function parameter.
 */
module PromptContext {
  import opened Wrappers
  import opened PromptTypes

  /** `prev.findIndex(p => p.id === id)`: the first index with that id, if any. */
  function FindIndex(items: seq<PromptListItem>, id: string): (r: Option<nat>)
    ensures r.Some? ==> r.value < |items| && items[r.value].id == id
                        && forall j :: 0 <= j < r.value ==> items[j].id != id
    ensures r.None? ==> forall j :: 0 <= j < |items| ==> items[j].id != id
  {
    if items == [] then None
    else if items[0].id == id then Some(0)
    else
      match FindIndex(items[1..], id)
      case None => None
      case Some(k) => Some(k + 1)
  }

  /**
   * The list update of updatePromptInCache: when some item has the id of
   * `item`, the first such item is replaced and the length and every other
   * item are kept; otherwise `item` is appended at the end.
   */
  function ReplaceOrAppend(items: seq<PromptListItem>, item: PromptListItem): (r: seq<PromptListItem>)
    ensures (exists j :: 0 <= j < |items| && items[j].id == item.id) ==>
      |r| == |items| &&
      exists k :: (0 <= k < |items| && r == items[k := item]
                   && items[k].id == item.id && forall j :: 0 <= j < k ==> items[j].id != item.id)
    ensures (forall j :: 0 <= j < |items| ==> items[j].id != item.id) ==> r == items + [item]
    ensures item in r
  {
    match FindIndex(items, item.id)
    case Some(k) =>
      assert items[k := item][k] == item;
      items[k := item]
    case None =>
      assert (items + [item])[|items|] == item;
      items + [item]
  }

  /** `prev.filter(p => p.id !== id)`. */
  function WithoutId(items: seq<PromptListItem>, id: string): (r: seq<PromptListItem>)
    ensures |r| <= |items|
    ensures forall p :: p in r <==> p in items && p.id != id
  {
    if items == [] then []
    else if items[0].id == id then WithoutId(items[1..], id)
    else [items[0]] + WithoutId(items[1..], id)
  }

  /** Removing an id nobody has keeps the list as it is, order included. */
  lemma {:induction false} WithoutAbsentId(items: seq<PromptListItem>, id: string)
    requires forall j :: 0 <= j < |items| ==> items[j].id != id
    ensures WithoutId(items, id) == items
  {
    if items != [] {
      WithoutAbsentId(items[1..], id);
    }
  }

  /** The filter commutes with appending, so it keeps the order of the items it keeps. */
  lemma {:induction false} WithoutAppend(a: seq<PromptListItem>, b: seq<PromptListItem>, id: string)
    ensures WithoutId(a + b, id) == WithoutId(a, id) + WithoutId(b, id)
  {
    if a == [] {
      assert a + b == b;
    } else {
      assert (a + b)[0] == a[0] && (a + b)[1..] == a[1..] + b;
      WithoutAppend(a[1..], b, id);
    }
  }

  /** Replacing or appending an item and then removing its id is removing its id. */
  lemma ReplaceOrAppendThenRemove(items: seq<PromptListItem>, item: PromptListItem)
    ensures WithoutId(ReplaceOrAppend(items, item), item.id) == WithoutId(items, item.id)
  {
    match FindIndex(items, item.id)
    case None =>
      WithoutAppend(items, [item], item.id);
    case Some(k) =>
      var r := items[k := item];
      assert items == items[..k] + [items[k]] + items[k + 1..];
      assert r == items[..k] + [item] + items[k + 1..];
      WithoutAppend(items[..k] + [items[k]], items[k + 1..], item.id);
      WithoutAppend(items[..k] + [item], items[k + 1..], item.id);
      WithoutAppend(items[..k], [items[k]], item.id);
      WithoutAppend(items[..k], [item], item.id);
  }

  /** Putting the same item twice is putting it once. */
  lemma ReplaceOrAppendIdempotent(items: seq<PromptListItem>, item: PromptListItem)
    ensures ReplaceOrAppend(ReplaceOrAppend(items, item), item) == ReplaceOrAppend(items, item)
  {
    var once := ReplaceOrAppend(items, item);
    match FindIndex(items, item.id)
    case Some(k) =>
      assert once[k] == item;
      var f := FindIndex(once, item.id);
      assert f.Some? && f.value <= k;
      assert forall j :: 0 <= j < k ==> once[j] == items[j];
      assert f == Some(k);
    case None =>
      assert once[|items|] == item;
      var f := FindIndex(once, item.id);
      assert f.Some? && f.value <= |items|;
      assert forall j :: 0 <= j < |items| ==> once[j] == items[j];
      assert f == Some(|items|);
  }

  /** What the list query delivers: its data, its error, or nothing yet. */
  datatype ListQuery = Pending | Data(prompts: seq<PromptListItem>, source: Source) | Failed(message: string)

  /** The provider's state. */
  class PromptCache {
    var prompts: seq<PromptListItem>
    var loadedPrompts: map<string, PromptConfig>
    var loading: bool
    var error: Option<string>
    var source: Option<Source>

    /** The initial state: nothing listed or loaded, loading, no error, no source. */
    constructor ()
      ensures prompts == [] && loadedPrompts == map[] && loading && error.None? && source.None?
    {
      prompts := [];
      loadedPrompts := map[];
      loading := true;
      error := None;
      source := None;
    }

    /**
     * The effect on the list query: data replaces the list and the source,
     * ends loading and clears the error; an error is recorded and ends
     * loading; a pending query changes nothing.
     */
    method OnListQuery(q: ListQuery)
      modifies this
      ensures loadedPrompts == old(loadedPrompts)
      ensures q.Data? ==> prompts == q.prompts && source == Some(q.source) && !loading && error.None?
      ensures q.Failed? ==> error == Some(q.message) && !loading && prompts == old(prompts) && source == old(source)
      ensures q.Pending? ==> prompts == old(prompts) && source == old(source) && loading == old(loading) && error == old(error)
    {
      match q
      case Data(ps, src) =>
        prompts := ps;
        source := Some(src);
        loading := false;
        error := None;
      case Failed(message) =>
        error := Some(message);
        loading := false;
      case Pending =>
    }

    /** refresh: loading again and no error, until the refetched query arrives through OnListQuery. */
    method Refresh()
      modifies this
      ensures loading && error.None?
      ensures prompts == old(prompts) && loadedPrompts == old(loadedPrompts) && source == old(source)
    {
      loading := true;
      error := None;
    }

    /**
     * loadPrompt: a cached prompt is returned without a fetch; otherwise the
     * prompt is fetched, cached under the requested id and returned, and a
     * failed fetch returns nothing and leaves the cache as it was.
     */
    method LoadPrompt(promptId: string, fetch: string -> Result<PromptConfig, string>)
      returns (r: Option<PromptConfig>, fetched: bool)
      modifies this
      ensures prompts == old(prompts) && loading == old(loading) && error == old(error) && source == old(source)
      ensures promptId in old(loadedPrompts) ==>
        !fetched && r == Some(old(loadedPrompts)[promptId]) && loadedPrompts == old(loadedPrompts)
      ensures promptId !in old(loadedPrompts) ==> fetched
      ensures promptId !in old(loadedPrompts) && fetch(promptId).Ok? ==>
        r == Some(fetch(promptId).value) && loadedPrompts == old(loadedPrompts)[promptId := fetch(promptId).value]
      ensures promptId !in old(loadedPrompts) && fetch(promptId).Err? ==>
        r.None? && loadedPrompts == old(loadedPrompts)
    {
      var cached := GetPrompt(promptId);
      if cached.Some? {
        return cached, false;
      }
      fetched := true;
      match fetch(promptId)
      case Ok(prompt) =>
        loadedPrompts := loadedPrompts[promptId := prompt];
        r := Some(prompt);
      case Err(_) =>
        r := None;
    }

    /** getPrompt: the cached prompt, or nothing for an id not loaded. */
    function GetPrompt(promptId: string): (r: Option<PromptConfig>)
      reads this
      ensures r.None? <==> promptId !in loadedPrompts
      ensures r.Some? ==> r.value == loadedPrompts[promptId]
    {
      if promptId in loadedPrompts then Some(loadedPrompts[promptId]) else None
    }

    /**
     * updatePromptInCache: the prompt is cached under its id, and its list
     * item (without system prompt and schema) replaces the listed item with
     * that id, or is appended.
     */
    method UpdatePromptInCache(prompt: PromptConfig)
      modifies this
      ensures loadedPrompts == old(loadedPrompts)[prompt.id := prompt]
      ensures prompts == ReplaceOrAppend(old(prompts), ToListItem(prompt))
      ensures loading == old(loading) && error == old(error) && source == old(source)
      ensures GetPrompt(prompt.id) == Some(prompt)
    {
      loadedPrompts := loadedPrompts[prompt.id := prompt];
      prompts := ReplaceOrAppend(prompts, ToListItem(prompt));
    }

    /** removePromptFromCache: the id is neither cached nor listed any more; everything else stays. */
    method RemovePromptFromCache(promptId: string)
      modifies this
      ensures loadedPrompts == old(loadedPrompts) - {promptId}
      ensures prompts == WithoutId(old(prompts), promptId)
      ensures loading == old(loading) && error == old(error) && source == old(source)
      ensures GetPrompt(promptId).None?
    {
      loadedPrompts := loadedPrompts - {promptId};
      prompts := WithoutId(prompts, promptId);
    }
  }
}

/**
 * The prompt router: a store of prompt configurations in a bucket (a map
 * from id to configuration), the hard-coded default prompts behind it, and
 * the procedures list, get, create, update (with optimistic locking),
 * delete and initializeDefaults.
 *
 * The bucket is reachable or not (`available`).  As the storage layer
 * behaves, an unreachable bucket reads as "no such prompt" and "does not
 * exist", and a save or delete on it fails.
 */
module PromptRouter {
  import opened Wrappers
  import opened Json
  import opened Trpc
  import opened PromptTypes

  // ---------------------------------------------------------------------------
  // Defaults
  // ---------------------------------------------------------------------------

  /** The prompt texts and schemas the defaults are read from at start-up. */
  datatype DefaultFiles = DefaultFiles(
    prompt: (FileType, Focus) -> string,
    schema: (FileType, Focus) -> seq<(string, Json)>)

  const DefaultCreatedAt := "2026-01-08T00:00:00Z"
  const SystemCreator := "system"

  function DefaultPrompt(files: DefaultFiles, id: string, name: string, description: string,
                         t: FileType, f: Focus, table: string): PromptConfig
  {
    PromptConfig(id, name, description, t, f, files.prompt(t, f), files.schema(t, f), table, true, DefaultCreatedAt, SystemCreator, 1)
  }

  /** getDefaultPrompts: the four defaults, in declaration order, each with its reserved id. */
  function DefaultPrompts(files: DefaultFiles): (ds: seq<PromptConfig>)
    ensures |ds| == |DefaultPromptIds|
    ensures forall k :: 0 <= k < |ds| ==> ds[k].id == DefaultPromptIds[k] && ds[k].isDefault && ds[k].version == 1
  {
    [ DefaultPrompt(files, VideoPerformanceDefault, "Video Performance Analysis (Default)",
        "Analýza výkonnosti videa: Hook, Message, Pacing, CTA", Video, Performance, "video_performance_test"),
      DefaultPrompt(files, VideoBrandingDefault, "Video Branding Analysis (Default)",
        "Analýza brandingu videa: Linkage, Story, Message, Craft", Video, Branding, "video_branding_test"),
      DefaultPrompt(files, ImagePerformanceDefault, "Image Performance Analysis (Default)",
        "Analýza výkonnosti obrázku: Attention, Copy, Offer, CTA", Image, Performance, "image_performance_test"),
      DefaultPrompt(files, ImageBrandingDefault, "Image Branding Analysis (Default)",
        "Analýza brandingu obrázku: Distinctiveness, Emotion, Message, CEP", Image, Branding, "image_branding_test") ]
  }

  /** The first prompt with the given id. */
  function FindById(ps: seq<PromptConfig>, id: string): (r: Option<PromptConfig>)
    ensures r.Some? ==> r.value in ps && r.value.id == id
    ensures r.None? <==> forall p :: p in ps ==> p.id != id
  {
    if ps == [] then None
    else if ps[0].id == id then Some(ps[0])
    else
      assert forall p :: p in ps ==> p == ps[0] || p in ps[1..];
      FindById(ps[1..], id)
  }

  // ---------------------------------------------------------------------------
  // list
  // ---------------------------------------------------------------------------

  predicate HasId(items: seq<PromptListItem>, id: string)
  {
    exists p :: p in items && p.id == id
  }

  function ListItems(ps: seq<PromptConfig>): (items: seq<PromptListItem>)
    ensures |items| == |ps|
    ensures forall k :: 0 <= k < |ps| ==> items[k] == ToListItem(ps[k])
  {
    seq(|ps|, k requires 0 <= k < |ps| => ToListItem(ps[k]))
  }

  /** The merge loop from the list `acc` on: each default whose id is not yet listed is appended. */
  function Merged(acc: seq<PromptListItem>, ds: seq<PromptListItem>): seq<PromptListItem>
    decreases |ds|
  {
    if ds == [] then acc
    else Merged(if HasId(acc, ds[0].id) then acc else acc + [ds[0]], ds[1..])
  }

  /**
   * list: with a bucket listing, its items in order and then the defaults
   * it does not already have, from source "gcs"; when the listing fails,
   * the defaults alone, from source "fallback".  Items carry no system
   * prompt and no schema.
   */
  method List(listing: Result<seq<PromptListItem>, string>, defaults: seq<PromptConfig>)
    returns (prompts: seq<PromptListItem>, source: Source)
    ensures listing.Ok? ==> source == Gcs && prompts == Merged(listing.value, ListItems(defaults))
    ensures listing.Err? ==> source == Fallback && prompts == ListItems(defaults)
  {
    var defaultItems := ListItems(defaults);
    if listing.Err? {
      return defaultItems, Fallback;
    }
    var all := listing.value;
    var i := 0;
    while i < |defaultItems|
      invariant 0 <= i <= |defaultItems|
      invariant Merged(all, defaultItems[i..]) == Merged(listing.value, defaultItems)
    {
      assert defaultItems[i..][1..] == defaultItems[i + 1..];
      if !HasId(all, defaultItems[i].id) {
        all := all + [defaultItems[i]];
      }
      i := i + 1;
    }
    return all, Gcs;
  }

  /** The bucket's items come first, unchanged and in order. */
  lemma {:induction false} MergedKeepsListing(acc: seq<PromptListItem>, ds: seq<PromptListItem>)
    ensures acc <= Merged(acc, ds)
    decreases |ds|
  {
    if ds != [] {
      var next := if HasId(acc, ds[0].id) then acc else acc + [ds[0]];
      MergedKeepsListing(next, ds[1..]);
    }
  }

  /**
   * Every default id is listed; every appended item is a default whose id
   * the bucket did not list; and ids listed once stay listed once.
   */
  lemma {:induction false} MergedDefaults(acc: seq<PromptListItem>, ds: seq<PromptListItem>)
    ensures var r := Merged(acc, ds);
      && (forall d :: d in ds ==> HasId(r, d.id))
      && (forall k :: |acc| <= k < |r| ==> r[k] in ds && !HasId(acc, r[k].id))
    decreases |ds|
  {
    MergedKeepsListing(acc, ds);
    if ds != [] {
      var next := if HasId(acc, ds[0].id) then acc else acc + [ds[0]];
      MergedDefaults(next, ds[1..]);
      MergedKeepsListing(next, ds[1..]);
      var r := Merged(acc, ds);
      assert HasId(next, ds[0].id) by {
        if HasId(acc, ds[0].id) {
          var p :| p in acc && p.id == ds[0].id;
          assert p in next;
        } else {
          assert next[|acc|] == ds[0];
        }
      }
      assert HasId(r, ds[0].id) by {
        var p :| p in next && p.id == ds[0].id;
        assert p in r;
      }
      forall k | |acc| <= k < |r|
        ensures r[k] in ds && !HasId(acc, r[k].id)
      {
        if k < |next| {
          assert next[k] == ds[0] && !HasId(acc, ds[0].id);
          assert r[k] == next[k];
        } else {
          assert r[k] in ds[1..] && !HasId(next, r[k].id);
          HasIdGrows(acc, next, r[k].id);
        }
      }
    }
  }

  /** An id listed in a list is listed in every list that keeps its items. */
  lemma HasIdGrows(acc: seq<PromptListItem>, next: seq<PromptListItem>, id: string)
    requires acc <= next
    ensures HasId(acc, id) ==> HasId(next, id)
  {
    if HasId(acc, id) {
      var p :| p in acc && p.id == id;
      var j :| 0 <= j < |acc| && acc[j] == p;
      assert next[j] == p;
    }
  }

  /** Ids are unique in a list. */
  predicate UniqueIds(items: seq<PromptListItem>)
  {
    forall j, k :: 0 <= j < k < |items| ==> items[j].id != items[k].id
  }

  /** When the bucket lists each id once, so does the merge: a bucket prompt overrides the default with its id. */
  lemma {:induction false} MergedUnique(acc: seq<PromptListItem>, ds: seq<PromptListItem>)
    requires UniqueIds(acc)
    ensures UniqueIds(Merged(acc, ds))
    decreases |ds|
  {
    if ds != [] {
      var next := if HasId(acc, ds[0].id) then acc else acc + [ds[0]];
      assert UniqueIds(next) by {
        if !HasId(acc, ds[0].id) {
          forall j, k | 0 <= j < k < |next| ensures next[j].id != next[k].id {
            if k == |acc| {
              assert next[j] in acc;
            }
          }
        }
      }
      MergedUnique(next, ds[1..]);
    }
  }

  // ---------------------------------------------------------------------------
  // The store
  // ---------------------------------------------------------------------------

  /** The signed-in user, as far as the procedures look at it. */
  datatype User = User(email: Option<string>, name: Option<string>, role: Option<string>)

  /** canManageDefaults: only an admin may change a default prompt. */
  function CanManageDefaults(email: string, role: string): bool
  {
    role == "admin"
  }

  /** `s || fallback` on an optional string: absent and empty both fall back. */
  function OrElse(s: Option<string>, fallback: string): string
  {
    if s.Some? && s.value != "" then s.value else fallback
  }

  function UserEmail(user: Option<User>): Option<string>
  {
    if user.Some? then user.value.email else None
  }

  function UserName(user: Option<User>): Option<string>
  {
    if user.Some? then user.value.name else None
  }

  /** `ctx.user?.role || "user"`. */
  function UserRole(user: Option<User>): string
  {
    OrElse(if user.Some? then user.value.role else None, "user")
  }

  /** `ctx.user?.email || ctx.user?.name || "anonymous"`. */
  function CreatedBy(user: Option<User>): string
  {
    OrElse(UserEmail(user), OrElse(UserName(user), "anonymous"))
  }

  /** What create accepts. */
  datatype CreateInput = CreateInput(
    id: string, name: string, description: string, filetype: FileType, focus: Focus,
    systemPrompt: string, outputSchema: seq<(string, Json)>, bigqueryTable: string)

  /** `/^[a-z0-9_]+$/`. */
  predicate SnakeId(s: string)
  {
    |s| > 0 && forall k :: 0 <= k < |s| ==> ('a' <= s[k] <= 'z' || '0' <= s[k] <= '9' || s[k] == '_')
  }

  /** What the input schema of create guarantees before the procedure runs. */
  predicate ValidCreate(input: CreateInput)
  {
    SnakeId(input.id) && |input.name| >= 1 && |input.systemPrompt| >= 1 && SnakeId(input.bigqueryTable)
  }

  /** The configuration create stores: the input, not a default, version 1. */
  function NewPrompt(input: CreateInput, createdAt: string, createdBy: string): PromptConfig
  {
    PromptConfig(input.id, input.name, input.description, input.filetype, input.focus,
      input.systemPrompt, input.outputSchema, input.bigqueryTable, false, createdAt, createdBy, 1)
  }

  /** What update accepts: the id, the fields to overwrite, and the version the caller read. */
  datatype UpdateInput = UpdateInput(
    id: string, name: Option<string>, description: Option<string>, systemPrompt: Option<string>,
    outputSchema: Option<seq<(string, Json)>>, bigqueryTable: Option<string>, version: int)

  predicate ValidUpdate(input: UpdateInput)
  {
    && (input.name.Some? ==> |input.name.value| >= 1)
    && (input.systemPrompt.Some? ==> |input.systemPrompt.value| >= 1)
    && (input.bigqueryTable.Some? ==> SnakeId(input.bigqueryTable.value))
  }

  function Overwrite<T>(old_: T, new_: Option<T>): T
  {
    if new_.Some? then new_.value else old_
  }

  /** `{...existing, ...updates, version: existing.version + 1}`. */
  function Updated(existing: PromptConfig, input: UpdateInput): (p: PromptConfig)
  {
    existing.(name := Overwrite(existing.name, input.name),
              description := Overwrite(existing.description, input.description),
              systemPrompt := Overwrite(existing.systemPrompt, input.systemPrompt),
              outputSchema := Overwrite(existing.outputSchema, input.outputSchema),
              bigqueryTable := Overwrite(existing.bigqueryTable, input.bigqueryTable),
              version := existing.version + 1)
  }

  /**
   * An update keeps id, filetype, focus, isDefault, createdAt and createdBy,
   * takes every supplied field, keeps every field not supplied, and counts
   * one version up.
   */
  lemma UpdatedFields(existing: PromptConfig, input: UpdateInput)
    ensures var p := Updated(existing, input);
      && p.id == existing.id && p.filetype == existing.filetype && p.focus == existing.focus
      && p.isDefault == existing.isDefault && p.createdAt == existing.createdAt && p.createdBy == existing.createdBy
      && p.version == existing.version + 1
      && (input.name.Some? ==> p.name == input.name.value) && (input.name.None? ==> p.name == existing.name)
      && (input.description.Some? ==> p.description == input.description.value)
      && (input.description.None? ==> p.description == existing.description)
      && (input.systemPrompt.Some? ==> p.systemPrompt == input.systemPrompt.value)
      && (input.systemPrompt.None? ==> p.systemPrompt == existing.systemPrompt)
      && (input.outputSchema.Some? ==> p.outputSchema == input.outputSchema.value)
      && (input.outputSchema.None? ==> p.outputSchema == existing.outputSchema)
      && (input.bigqueryTable.Some? ==> p.bigqueryTable == input.bigqueryTable.value)
      && (input.bigqueryTable.None? ==> p.bigqueryTable == existing.bigqueryTable)
  {
  }

  /** An update that supplies no field changes nothing but the version. */
  lemma UpdateNothing(existing: PromptConfig, id: string, version: int)
    ensures Updated(existing, UpdateInput(id, None, None, None, None, None, version)) == existing.(version := existing.version + 1)
  {
  }

  function NotFoundMessage(id: string): string { "Prompt " + id + " not found" }
  function ExistsMessage(id: string): string { "Prompt " + id + " already exists" }
  function ReservedMessage(id: string): string { "Prompt ID " + id + " is reserved for defaults" }
  function SaveFailedMessage(id: string): string { "Failed to save prompt " + id + " to GCS" }
  const OnlyAdminsUpdate := "Only admins can update default prompts"
  const StaleVersion := "Prompt was modified by another user. Please refresh and try again."
  const CannotDeleteDefault := "Cannot delete default prompts"

  /** The store: prompt files by id, whether the bucket is reachable, and the defaults. */
  class PromptStore {
    var stored: map<string, PromptConfig>
    var available: bool
    const defaults: seq<PromptConfig>

    /** Each prompt file holds the prompt of its own id. */
    ghost predicate Valid()
      reads this
    {
      forall id :: id in stored ==> stored[id].id == id
    }

    constructor (files: DefaultFiles, initial: map<string, PromptConfig>, reachable: bool)
      requires forall id :: id in initial ==> initial[id].id == id
      ensures Valid() && stored == initial && available == reachable && defaults == DefaultPrompts(files)
    {
      stored := initial;
      available := reachable;
      defaults := DefaultPrompts(files);
    }

    /** getPromptFromGCS: the stored prompt, or nothing (also when the bucket is unreachable). */
    function Lookup(id: string): Option<PromptConfig>
      reads this
    {
      if available && id in stored then Some(stored[id]) else None
    }

    /** promptExistsInGCS. */
    predicate Exists(id: string)
      reads this
    {
      available && id in stored
    }

    /**
     * get: the stored prompt from source "gcs", else the default from
     * source "default", else NOT_FOUND.  (The storage layer never throws
     * on a read, so the procedure's fallback branch is not reachable.)
     */
    function Get(promptId: string): (r: Result<(PromptConfig, Source), TrpcError>)
      reads this
      requires Valid()
      ensures r.Ok? ==> r.value.0.id == promptId
      ensures r.Ok? && r.value.1 == Gcs <==> Exists(promptId)
      ensures r.Ok? && r.value.1 == Default <==> !Exists(promptId) && FindById(defaults, promptId).Some?
      ensures r.Err? <==> !Exists(promptId) && forall d :: d in defaults ==> d.id != promptId
      ensures r.Err? ==> r.error == TrpcError(NotFound, NotFoundMessage(promptId))
    {
      match Lookup(promptId)
      case Some(p) => Ok((p, Gcs))
      case None =>
        match FindById(defaults, promptId)
        case Some(d) => Ok((d, Default))
        case None => Err(TrpcError(NotFound, NotFoundMessage(promptId)))
    }

    /**
     * create: CONFLICT when the id is stored, else BAD_REQUEST for a
     * reserved id, else the prompt is saved as a non-default at version 1
     * (and a failed save surfaces as an internal error).
     */
    method Create(input: CreateInput, user: Option<User>, now: string) returns (r: Result<string, TrpcError>)
      requires Valid() && ValidCreate(input)
      modifies this
      ensures Valid() && available == old(available)
      ensures old(Exists(input.id)) ==> r == Err(TrpcError(Conflict, ExistsMessage(input.id)))
      ensures !old(Exists(input.id)) && input.id in DefaultPromptIds ==> r == Err(TrpcError(BadRequest, ReservedMessage(input.id)))
      ensures !old(Exists(input.id)) && input.id !in DefaultPromptIds && !available ==>
        r == Err(TrpcError(InternalServerError, SaveFailedMessage(input.id)))
      ensures r.Err? ==> stored == old(stored)
      ensures r.Ok? <==> !old(Exists(input.id)) && input.id !in DefaultPromptIds && available
      ensures r.Ok? ==> r.value == input.id && stored == old(stored)[input.id := NewPrompt(input, now, CreatedBy(user))]
      ensures r.Ok? ==> Get(input.id) == Ok((NewPrompt(input, now, CreatedBy(user)), Gcs))
    {
      if Exists(input.id) {
        return Err(TrpcError(Conflict, ExistsMessage(input.id)));
      }
      if input.id in DefaultPromptIds {
        return Err(TrpcError(BadRequest, ReservedMessage(input.id)));
      }
      var config := NewPrompt(input, now, CreatedBy(user));
      if !available {
        return Err(TrpcError(InternalServerError, SaveFailedMessage(config.id)));
      }
      stored := stored[config.id := config];
      return Ok(input.id);
    }

    /**
     * update: NOT_FOUND when not stored, else FORBIDDEN for a default when
     * the user is not an admin, else CONFLICT when the caller's version is
     * stale, else the merged prompt is saved one version up.
     */
    method Update(input: UpdateInput, user: Option<User>) returns (r: Result<int, TrpcError>)
      requires Valid() && ValidUpdate(input)
      modifies this
      ensures Valid() && available == old(available)
      ensures r.Err? ==> stored == old(stored)
      ensures !old(Exists(input.id)) ==> r == Err(TrpcError(NotFound, NotFoundMessage(input.id)))
      ensures old(Exists(input.id)) && old(stored)[input.id].isDefault && UserRole(user) != "admin" ==>
        r == Err(TrpcError(Forbidden, OnlyAdminsUpdate))
      ensures old(Exists(input.id)) && (!old(stored)[input.id].isDefault || UserRole(user) == "admin")
              && old(stored)[input.id].version != input.version ==>
        r == Err(TrpcError(Conflict, StaleVersion))
      ensures r.Ok? <==> old(Exists(input.id)) && (!old(stored)[input.id].isDefault || UserRole(user) == "admin")
                         && old(stored)[input.id].version == input.version
      ensures r.Ok? ==> r.value == input.version + 1
                        && stored == old(stored)[input.id := Updated(old(stored)[input.id], input)]
    {
      var existing := Lookup(input.id);
      if existing.None? {
        return Err(TrpcError(NotFound, NotFoundMessage(input.id)));
      }
      var e := existing.value;
      if e.isDefault && !CanManageDefaults(OrElse(UserEmail(user), ""), UserRole(user)) {
        return Err(TrpcError(Forbidden, OnlyAdminsUpdate));
      }
      if e.version != input.version {
        return Err(TrpcError(Conflict, StaleVersion));
      }
      var updated := Updated(e, input);
      stored := stored[updated.id := updated];
      return Ok(updated.version);
    }

    /** delete: NOT_FOUND when not stored, FORBIDDEN for a default, else the prompt is removed. */
    method Delete(promptId: string) returns (r: Result<(), TrpcError>)
      requires Valid()
      modifies this
      ensures Valid() && available == old(available)
      ensures !old(Exists(promptId)) ==> r == Err(TrpcError(NotFound, NotFoundMessage(promptId)))
      ensures old(Exists(promptId)) && old(stored)[promptId].isDefault ==> r == Err(TrpcError(Forbidden, CannotDeleteDefault))
      ensures r.Ok? <==> old(Exists(promptId)) && !old(stored)[promptId].isDefault
      ensures r.Err? ==> stored == old(stored)
      ensures r.Ok? ==> stored == old(stored) - {promptId}
      ensures r.Ok? ==> Get(promptId) == (if FindById(defaults, promptId).Some? then Ok((FindById(defaults, promptId).value, Default))
                                          else Err(TrpcError(NotFound, NotFoundMessage(promptId))))
    {
      var existing := Lookup(promptId);
      if existing.None? {
        return Err(TrpcError(NotFound, NotFoundMessage(promptId)));
      }
      if existing.value.isDefault {
        return Err(TrpcError(Forbidden, CannotDeleteDefault));
      }
      stored := stored - {promptId};
      return Ok(());
    }

    /**
     * initializeDefaults: each default not yet stored is saved and counted.
     * On an unreachable bucket every save fails, is logged and skipped.
     */
    method InitializeDefaults() returns (initialized: nat)
      requires Valid()
      modifies this
      ensures Valid() && available == old(available)
      ensures available ==> (stored, initialized) == Seeded(old(stored), defaults, 0)
      ensures !available ==> stored == old(stored) && initialized == 0
    {
      initialized := 0;
      var i := 0;
      while i < |defaults|
        invariant 0 <= i <= |defaults|
        invariant Valid() && available == old(available)
        invariant available ==>
          var rest := Seeded(stored, defaults, i);
          rest.0 == Seeded(old(stored), defaults, 0).0 && initialized + rest.1 == Seeded(old(stored), defaults, 0).1
        invariant !available ==> stored == old(stored) && initialized == 0
      {
        var prompt := defaults[i];
        if !Exists(prompt.id) {
          if available {
            stored := stored[prompt.id := prompt];
            initialized := initialized + 1;
          }
        }
        i := i + 1;
      }
    }
  }

  /** The defaults from index `i` on saved into `stored` when missing, and how many were saved. */
  function Seeded(stored: map<string, PromptConfig>, ds: seq<PromptConfig>, i: nat): (map<string, PromptConfig>, nat)
    requires i <= |ds|
    decreases |ds| - i
  {
    if i == |ds| then (stored, 0)
    else if ds[i].id in stored then Seeded(stored, ds, i + 1)
    else
      var rest := Seeded(stored[ds[i].id := ds[i]], ds, i + 1);
      (rest.0, rest.1 + 1)
  }

  /**
   * Seeding overwrites nothing, leaves every default id stored, adds only
   * defaults, and counts exactly the ids it added.
   */
  lemma {:induction false} SeededStores(stored: map<string, PromptConfig>, ds: seq<PromptConfig>, i: nat)
    requires i <= |ds|
    ensures var (m, n) := Seeded(stored, ds, i);
      && (forall id :: id in stored ==> id in m && m[id] == stored[id])
      && (forall k :: i <= k < |ds| ==> ds[k].id in m)
      && (forall id :: id in m && id !in stored ==> m[id] in ds[i..] && m[id].id == id)
      && |m.Keys| == |stored.Keys| + n
    decreases |ds| - i
  {
    if i < |ds| {
      if ds[i].id in stored {
        SeededStores(stored, ds, i + 1);
      } else {
        var next := stored[ds[i].id := ds[i]];
        SeededStores(next, ds, i + 1);
        assert next.Keys == stored.Keys + {ds[i].id};
      }
    }
  }

  /** Seeding twice adds nothing the second time. */
  lemma SeedTwice(stored: map<string, PromptConfig>, ds: seq<PromptConfig>)
    ensures Seeded(Seeded(stored, ds, 0).0, ds, 0) == (Seeded(stored, ds, 0).0, 0)
  {
    SeededStores(stored, ds, 0);
    SeededNothingMissing(Seeded(stored, ds, 0).0, ds, 0);
  }

  lemma {:induction false} SeededNothingMissing(stored: map<string, PromptConfig>, ds: seq<PromptConfig>, i: nat)
    requires i <= |ds|
    requires forall k :: i <= k < |ds| ==> ds[k].id in stored
    ensures Seeded(stored, ds, i) == (stored, 0)
    decreases |ds| - i
  {
    if i < |ds| {
      SeededNothingMissing(stored, ds, i + 1);
    }
  }
}

/**
 * The prompt types shared by server and client: a prompt configuration,
 * its list item (the configuration without its two large fields) and the
 * reserved ids of the default prompts.
 */
module PromptTypes {
  import opened Json

  datatype FileType = Image | Video
  datatype Focus = Branding | Performance

  function FileTypeName(t: FileType): string
  {
    match t
    case Image => "image"
    case Video => "video"
  }

  function FocusName(f: Focus): string
  {
    match f
    case Branding => "branding"
    case Performance => "performance"
  }

  /** A prompt: system prompt, output schema and BigQuery table, with metadata. */
  datatype PromptConfig = PromptConfig(
    id: string, name: string, description: string,
    filetype: FileType, focus: Focus,
    systemPrompt: string, outputSchema: seq<(string, Json)>,
    bigqueryTable: string, isDefault: bool,
    createdAt: string, createdBy: string, version: int)

  /** A prompt without `systemPrompt` and `outputSchema`. */
  datatype PromptListItem = PromptListItem(
    id: string, name: string, description: string,
    filetype: FileType, focus: Focus,
    bigqueryTable: string, isDefault: bool,
    createdAt: string, createdBy: string, version: int)

  /** `const { systemPrompt, outputSchema, ...rest } = prompt`: every other field is kept. */
  function ToListItem(p: PromptConfig): (item: PromptListItem)
    ensures item.id == p.id && item.version == p.version && item.isDefault == p.isDefault
    ensures item.name == p.name && item.description == p.description
    ensures item.filetype == p.filetype && item.focus == p.focus
    ensures item.bigqueryTable == p.bigqueryTable
    ensures item.createdAt == p.createdAt && item.createdBy == p.createdBy
  {
    PromptListItem(p.id, p.name, p.description, p.filetype, p.focus, p.bigqueryTable, p.isDefault, p.createdAt, p.createdBy, p.version)
  }

  /**
   * The list item forgets exactly the two large fields: two prompts have the
   * same list item iff they agree on every field except `systemPrompt` and
   * `outputSchema`.
   */
  lemma ListItemForgetsLargeFields(p: PromptConfig, q: PromptConfig)
    ensures ToListItem(p) == ToListItem(q) <==>
      p.(systemPrompt := q.systemPrompt, outputSchema := q.outputSchema) == q
  {
  }

  /** Where a prompt or list came from. */
  datatype Source = Gcs | Default | Fallback

  const VideoPerformanceDefault := "video_performance_default"
  const VideoBrandingDefault := "video_branding_default"
  const ImagePerformanceDefault := "image_performance_default"
  const ImageBrandingDefault := "image_branding_default"

  /** The ids reserved for the default prompts. */
  const DefaultPromptIds: seq<string> := [VideoPerformanceDefault, VideoBrandingDefault, ImagePerformanceDefault, ImageBrandingDefault]
}

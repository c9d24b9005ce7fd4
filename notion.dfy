/** The shapes of the Notion and configuration values the pipeline reads.
    Fields the pipeline never reads (timestamps, authors, cover, icon,
    archived and trash flags, request id) are not part of these values. */
module Notion {
  import opened Wrappers

  /** `text` of a rich-text segment. */
  datatype TextContent = TextContent(content: string, link: Option<string>)

  /** One segment of a `title` or `rich_text` property. */
  datatype TitleText = TitleText(text: TextContent, plainText: string)

  /** An entry of a `people` property; `name` may be missing. */
  datatype User = User(id: string, name: Option<string>)

  /** The chosen option of a `select` or `status` property (read with `.get("name")`). */
  datatype SelectOption = SelectOption(id: string, name: Option<string>, color: string)

  /** The payload of a `date` property (read with `.get("start")`). */
  datatype DateValue = DateValue(start: Option<string>, end: Option<string>)

  /** One entry of `page.properties`, tagged with its own kind. A payload that
      Notion sends as `null` is `None`; `Other` is any other kind (`url`, `email`,
      `formula`, ...), which the pipeline does not interpret, and `Empty` is
      the empty object `{}`. */
  datatype Property =
    | Title(items: seq<TitleText>)
    | RichText(items: seq<TitleText>)
    | People(people: seq<User>)
    | Select(option: Option<SelectOption>)
    | Status(option: Option<SelectOption>)
    | Date(date: Option<DateValue>)
    | CreatedTime(time: string)
    | Number(number: Option<int>)
    | Checkbox(checked: Option<bool>)
    | Other
    | Empty

  /** A fetched page: its id, its `parent` object, its properties and its URL. */
  datatype Page = Page(id: string, parent: map<string, string>, properties: map<string, Property>, url: string)

  /** The `entity` of a webhook event; `kind` is the JSON field `type`. */
  datatype Entity = Entity(id: string, kind: string)

  /** A webhook event that validated as `NotionWebhook`; `eventType` is the JSON field `type`. */
  datatype NotionWebhook = NotionWebhook(
    id: string,
    timestamp: string,
    workspaceId: string,
    subscriptionId: string,
    attemptNumber: int,
    eventType: string,
    entity: Entity)

  /** An entry `{name, type}` of the configuration's property lists. */
  datatype PropSpec = PropSpec(name: string, kind: string)

  /** `required_properties` and `optional_properties` of the configuration; a
      list the configuration does not mention is the empty sequence. */
  datatype Config = Config(required: seq<PropSpec>, optional: seq<PropSpec>)
}

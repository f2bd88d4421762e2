/** Values exchanged over the tool-invocation protocol that the proxy relays:
    JSON payloads, the capability record a server advertises at handshake,
    tool-call parameters and tool results. */
module Protocol {

  datatype Option<+T> = None | Some(value: T)

  /** An untyped JSON value, as carried in tool arguments and result fields. */
  datatype Json =
    | JNull
    | JBool(b: bool)
    | JNum(n: real)
    | JStr(s: string)
    | JArr(items: seq<Json>)
    | JObj(members: seq<(string, Json)>)

  /** The `resources` capability; `subscribe` is its optional sub-flag
      (absent reads as false). */
  datatype ResourcesCapability = ResourcesCapability(subscribe: bool)

  /** The capability record a server advertises. Each flag stands for the
      presence of the corresponding (object-valued, hence truthy) field. */
  datatype Capabilities = Capabilities(
    logging: bool,
    prompts: bool,
    resources: Option<ResourcesCapability>,
    tools: bool)

  /** Parameters of a `tools/call` request: the tool name, its optional
      `arguments` object and every other field (`_meta` and the like). */
  datatype CallParams = CallParams(name: string, arguments: Option<Json>, rest: map<string, Json>)

  /** One content item of a tool result: its `type` tag, its `text` (used only
      when the tag is "text") and its remaining fields. */
  datatype ContentItem = ContentItem(kind: string, text: string, attrs: map<string, Json>)

  /** A tool result: the content items in order and every other field
      (`isError`, `structuredContent`, `_meta`, ...). */
  datatype ToolResponse = ToolResponse(content: seq<ContentItem>, fields: map<string, Json>)

  const TextKind := "text"

  predicate IsText(c: ContentItem) { c.kind == TextKind }

  /** A response carrying a single text item and no other field. */
  function TextResponse(message: string): (r: ToolResponse)
    ensures |r.content| == 1 && IsText(r.content[0]) && r.content[0].text == message
    ensures r.content[0].attrs == map[]
    ensures r.fields == map[]
  {
    ToolResponse([ContentItem(TextKind, message, map[])], map[])
  }
}

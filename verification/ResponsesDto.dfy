/** The OpenAI Responses stream as the converters read it, after JSON decoding. */
module ResponsesDto {
  import opened Basics
  import Text

  type Annotation = string

  /** One part of a message or reasoning item; outputText says its type is output_text. */
  datatype ContentPart = ContentPart(outputText: bool, text: string, annotations: seq<Annotation>)

  /** A function_call and a custom_tool_call are treated alike. */
  datatype ItemType = ReasoningType | MessageType | ToolType | OtherType(name: string)

  datatype Item = Item(
    itemType: ItemType,
    id: string,
    callId: string,
    name: string,
    role: string,
    content: seq<ContentPart>,
    summary: seq<string>,
    arguments: string)

  /** A status may be absent. */
  datatype Response = Response(status: Option<string>, incompleteReason: Option<string>, output: seq<Item>)

  /** Event types; those a converter treats alike share a constructor. */
  datatype EventType =
    | Created
    | ReasoningDelta
    | ReasoningDone
    | OutputTextDelta
    | OutputTextDone
    | AnnotationAdded
    | ItemAdded
    | ItemDone
    | ArgumentsDelta
    | ArgumentsDone
    | Completed
    | Incomplete
    | Failed
    | OtherEvent

  datatype AnnotationField = NoAnnotation | Malformed | Parsed(annotation: Annotation)

  datatype StreamEvent = StreamEvent(
    eventType: EventType,
    response: Option<Response>,
    delta: string,
    arguments: Option<string>,
    text: Option<string>,
    item: Option<Item>,
    annotation: AnnotationField,
    outputIndex: Option<int>,
    itemId: string)

  /** responseStreamEventItemID. */
  function ItemIdOf(event: StreamEvent): string {
    if event.item.Some? && Text.Trim(event.item.value.id) != "" then Text.Trim(event.item.value.id)
    else Text.Trim(event.itemId)
  }

  /** How many of at most two newlines a text ends with. */
  function TrailingNewlines(s: string): nat {
    if s == "" || s[|s| - 1] != '\n' then 0
    else if |s| == 1 || s[|s| - 2] != '\n' then 1
    else 2
  }

  function LeadingNewlines(s: string): nat {
    if s == "" || s[0] != '\n' then 0
    else if |s| == 1 || s[1] != '\n' then 1
    else 2
  }

  function Newlines(n: int): string {
    if n <= 0 then "" else if n == 1 then "\n" else "\n\n"
  }

  /** appendSeparatedText: paragraphs are kept at least a blank line apart. */
  function AppendSeparated(current: string, text: string): string {
    if text == "" then current
    else if current == "" then text
    else current + Newlines(2 - TrailingNewlines(current) - LeadingNewlines(text)) + text
  }

  function SeparatedParts(parts: seq<ContentPart>): string {
    if parts == [] then "" else
      AppendSeparated(SeparatedParts(parts[..|parts| - 1]), parts[|parts| - 1].text)
  }

  function SeparatedTexts(texts: seq<string>): string {
    if texts == [] then "" else AppendSeparated(SeparatedTexts(texts[..|texts| - 1]), texts[|texts| - 1])
  }

  /** reasoningOutputText: the content if it has any text, else the summary. */
  function ReasoningText(item: Item): string {
    if exists i :: 0 <= i < |item.content| && item.content[i].text != "" then SeparatedParts(item.content)
    else SeparatedTexts(item.summary)
  }

  /** The output_text parts of a message, joined. */
  function MessageText(parts: seq<ContentPart>): string {
    if parts == [] then "" else
      var part := parts[|parts| - 1];
      MessageText(parts[..|parts| - 1]) + if part.outputText then part.text else ""
  }

  function MessageAnnotations(parts: seq<ContentPart>): seq<Annotation> {
    if parts == [] then [] else
      var part := parts[|parts| - 1];
      MessageAnnotations(parts[..|parts| - 1]) + if part.outputText then part.annotations else []
  }

  /** ResponsesFinishReasonFromStatus. */
  function FinishReasonFromStatus(response: Option<Response>): Option<string> {
    if response.None? || Text.Trim(response.value.status.GetOr("")) != "incomplete" then None
    else if response.value.incompleteReason.Some?
            && Text.Trim(response.value.incompleteReason.value) == "content_filter" then Some("content_filter")
    else Some("length")
  }
}

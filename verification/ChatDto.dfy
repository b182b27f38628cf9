/** The OpenAI Chat completion stream as the converters read it, after JSON decoding. */
module ChatDto {
  import opened Basics

  datatype ToolDelta = ToolDelta(index: Option<int>, id: string, name: string, arguments: string)

  /** The annotations field of a delta: absent, undecodable, or a list of annotations. */
  datatype Annotations = NoAnnotations | BadAnnotations | AnnotationList(list: seq<string>)

  /** citations are the annotations that have a Claude form, in that form. */
  datatype Choice = Choice(index: int, finishReason: Option<string>, toolCalls: seq<ToolDelta>, reasoning: string,
                           text: string, annotations: Annotations, citations: seq<string>)

  /** Whether a chunk reports usage, and whether any token count in it is positive. */
  datatype Usage = NoUsage | ZeroUsage | TokenUsage

  datatype Chunk = Chunk(id: string, choices: seq<Choice>, usage: Usage)
}

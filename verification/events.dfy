/**
  The records the demos read from and build for the runner: `types.Part`,
  `types.Content`, `types.FunctionCall`, `types.FunctionResponse` and the
  runner's `Event`. Every attribute the demos read through `getattr(x, name, None)`
  or test for truthiness is optional.
 */
module Events {
  import opened Values

  /** An attribute read with a non-`None` default: missing, present but `None`, or set. */
  datatype Attr<+T> = Absent | NullAttr | Present(value: T)

  /** A model-issued call to a tool; `tool_call`-style objects share this shape. */
  datatype FunctionCall = FunctionCall(
    id: Option<string>,
    name: Attr<string>,
    args: Option<Value>,
    arguments: Option<Value>)

  datatype FunctionResponse = FunctionResponse(
    id: Option<string>,
    name: Option<string>,
    response: Option<Dict>)

  datatype Part = Part(
    text: Option<string>,
    functionCall: Option<FunctionCall>,
    toolCall: Option<FunctionCall>,
    functionResponse: Option<FunctionResponse>)

  datatype Content = Content(role: Option<string>, parts: Option<seq<Part>>)

  /**
    One streamed runner event. Whether an event is a final response is decided
    by the runner library, so the operations below take that test as a parameter.
   */
  datatype Event = Event(invocationId: string, author: string, content: Option<Content>)

  /** A part carrying only text, as `types.Part(text=t)` builds it. */
  function TextPart(t: string): Part {
    Part(Some(t), None, None, None)
  }

  /** The parts of a content; `[]` when the list is `None`. */
  function ContentParts(c: Content): seq<Part> {
    if c.parts.Some? then c.parts.value else []
  }

  /**
    The parts of an event; `[]` exactly when the Python guard
    `not event.content or not event.content.parts` holds.
   */
  function Parts(ev: Event): seq<Part> {
    if ev.content.Some? then ContentParts(ev.content.value) else []
  }

  /** `getattr(part, "text", None)` is truthy. */
  predicate HasText(p: Part) {
    NonEmpty(p.text)
  }
}

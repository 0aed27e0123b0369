/**
  `print_event_safely`, shared verbatim by the loop and nested demos, as a
  function from an event to the lines it prints: one line per text part and
  one per tool-call part, in part order.
 */
module EventPrinter {
  import opened Values
  import opened Events

  /**
    A printed line: `[author]: text`, or `[author] TOOL_CALL: name(args)`.
    The arguments are kept as a value; their Python `repr` is not modelled.
   */
  datatype Line =
    | Said(author: string, text: string)
    | ToolCallLine(author: string, name: string, args: Value)

  const UnknownTool := "<unknown_tool>"

  /** The part's `function_call`, or else its `tool_call`. */
  function CallOf(p: Part): (r: Option<FunctionCall>)
    ensures p.functionCall.Some? ==> r == p.functionCall
    ensures p.functionCall.None? ==> r == p.toolCall
  {
    if p.functionCall.Some? then p.functionCall else p.toolCall
  }

  /** `getattr(fc, "name", "<unknown_tool>")` as formatted: a `None` name prints as "None". */
  function ToolName(fc: FunctionCall): (name: string)
    ensures fc.name.Absent? ==> name == UnknownTool
    ensures fc.name.NullAttr? ==> name == "None"
    ensures fc.name.Present? ==> name == fc.name.value
  {
    match fc.name
    case Absent => UnknownTool
    case NullAttr => "None"
    case Present(n) => n
  }

  /** `args or arguments or {}`: the first truthy of the two, else the empty dict. */
  function ToolArgs(fc: FunctionCall): (v: Value)
    ensures Truthy(v) || v == Obj(map[])
    ensures fc.args.Some? && Truthy(fc.args.value) ==> v == fc.args.value
    ensures !(fc.args.Some? && Truthy(fc.args.value)) && fc.arguments.Some? && Truthy(fc.arguments.value) ==> v == fc.arguments.value
    ensures !(fc.args.Some? && Truthy(fc.args.value)) && !(fc.arguments.Some? && Truthy(fc.arguments.value)) ==> v == Obj(map[])
  {
    if fc.args.Some? && Truthy(fc.args.value) then fc.args.value
    else if fc.arguments.Some? && Truthy(fc.arguments.value) then fc.arguments.value
    else Obj(map[])
  }

  /** The lines printed for one part: its text when non-empty, otherwise its tool call, otherwise nothing. */
  function RenderPart(author: string, p: Part): (r: seq<Line>)
    ensures |r| <= 1
    ensures HasText(p) ==> r == [Said(author, p.text.value)]
    ensures !HasText(p) && CallOf(p).None? ==> r == []
    ensures !HasText(p) && CallOf(p).Some? ==>
      r == [ToolCallLine(author, ToolName(CallOf(p).value), ToolArgs(CallOf(p).value))]
  {
    if HasText(p) then [Said(author, p.text.value)]
    else match CallOf(p)
      case Some(fc) => [ToolCallLine(author, ToolName(fc), ToolArgs(fc))]
      case None => []
  }

  /** The lines printed for a sequence of parts, in part order. */
  function RenderParts(author: string, parts: seq<Part>): (r: seq<Line>)
    ensures |r| <= |parts|
    ensures forall l | l in r :: l.author == author
    ensures |parts| == 1 ==> r == RenderPart(author, parts[0])
  {
    if |parts| == 0 then [] else RenderPart(author, parts[0]) + RenderParts(author, parts[1..])
  }

  /** `print_event_safely`: nothing for an event without content or parts. */
  function RenderEvent(ev: Event): (r: seq<Line>)
    ensures |Parts(ev)| == 0 ==> r == []
    ensures |r| <= |Parts(ev)|
    ensures forall l | l in r :: l.author == ev.author
    ensures r == RenderParts(ev.author, Parts(ev))
    ensures SaidTexts(r) == Texts(Parts(ev))
    ensures |r| == PrintingParts(Parts(ev))
  {
    RenderedTextsAreTexts(ev.author, Parts(ev));
    OneLinePerPrintingPart(ev.author, Parts(ev));
    if |Parts(ev)| == 0 then [] else RenderParts(ev.author, Parts(ev))
  }

  /** A part without text that carries both a `function_call` and a `tool_call` prints the `function_call`. */
  lemma FunctionCallWins(author: string, p: Part)
    requires !HasText(p) && p.functionCall.Some? && p.toolCall.Some?
    ensures RenderPart(author, p)
      == [ToolCallLine(author, ToolName(p.functionCall.value), ToolArgs(p.functionCall.value))]
  {
  }

  /** Rendering follows part order: the lines of `a + b` are those of `a` followed by those of `b`. */
  lemma {:induction false} RenderPartsAppend(author: string, a: seq<Part>, b: seq<Part>)
    ensures RenderParts(author, a + b) == RenderParts(author, a) + RenderParts(author, b)
  {
    if |a| == 0 {
      assert a + b == b;
    } else {
      assert (a + b)[1..] == a[1..] + b;
      RenderPartsAppend(author, a[1..], b);
    }
  }

  /** The non-empty texts of the parts, in order. */
  function Texts(parts: seq<Part>): seq<string> {
    if |parts| == 0 then []
    else (if HasText(parts[0]) then [parts[0].text.value] else []) + Texts(parts[1..])
  }

  /** The texts of the `Said` lines, in order. */
  function SaidTexts(lines: seq<Line>): seq<string> {
    if |lines| == 0 then []
    else (if lines[0].Said? then [lines[0].text] else []) + SaidTexts(lines[1..])
  }

  lemma {:induction false} SaidTextsAppend(a: seq<Line>, b: seq<Line>)
    ensures SaidTexts(a + b) == SaidTexts(a) + SaidTexts(b)
  {
    if |a| == 0 {
      assert a + b == b;
    } else {
      assert (a + b)[1..] == a[1..] + b;
      SaidTextsAppend(a[1..], b);
    }
  }

  /** The text lines printed are exactly the non-empty texts of the parts, in order; tool calls add no text line. */
  lemma {:induction false} RenderedTextsAreTexts(author: string, parts: seq<Part>)
    ensures SaidTexts(RenderParts(author, parts)) == Texts(parts)
  {
    if |parts| > 0 {
      var head := RenderPart(author, parts[0]);
      SaidTextsAppend(head, RenderParts(author, parts[1..]));
      RenderedTextsAreTexts(author, parts[1..]);
      assert SaidTexts(head) == (if HasText(parts[0]) then [parts[0].text.value] else []) by {
        if |head| == 1 {
          assert head[1..] == [];
        }
      }
    }
  }

  /** The number of parts that print a line: those with text or with a call. */
  function PrintingParts(parts: seq<Part>): nat {
    if |parts| == 0 then 0
    else (if HasText(parts[0]) || CallOf(parts[0]).Some? then 1 else 0) + PrintingParts(parts[1..])
  }

  /** Every part with text or a call prints exactly one line, and no other part prints. */
  lemma {:induction false} OneLinePerPrintingPart(author: string, parts: seq<Part>)
    ensures |RenderParts(author, parts)| == PrintingParts(parts)
  {
    if |parts| > 0 {
      OneLinePerPrintingPart(author, parts[1..]);
    }
  }
}

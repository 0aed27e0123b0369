/**
  Tools that act on the tool context: the colour tools of the rewind demo and
  the `exit_loop` tool shared by the loop and nested demos.
 */
module ToolState {
  import opened Values

  /** What a tool sees of its context: the session state and the escalate action flag. */
  datatype ToolContext = ToolContext(state: Dict, escalate: bool)

  const ColorKey := "color"

  /** `set_state_color`: stores the colour and reports it back. */
  function SetStateColor(color: string, ctx: ToolContext): (r: (ToolContext, Dict))
    ensures ColorKey in r.0.state && r.0.state[ColorKey] == Str(color)
    ensures r.0.state.Keys == ctx.state.Keys + {ColorKey}
    ensures forall k | k in ctx.state && k != ColorKey :: r.0.state[k] == ctx.state[k]
    ensures r.0.escalate == ctx.escalate
    ensures r.1.Keys == {"status", "color"} && r.1["status"] == Str("ok") && r.1["color"] == Str(color)
  {
    (ctx.(state := ctx.state[ColorKey := Str(color)]), map["status" := Str("ok"), "color" := Str(color)])
  }

  /** `get_state_color`: reports the stored colour, or `None` when no colour is stored; the context is only read. */
  function GetStateColor(ctx: ToolContext): (r: Dict)
    ensures r.Keys == {"color"}
    ensures ColorKey in ctx.state ==> r["color"] == ctx.state[ColorKey]
    ensures ColorKey !in ctx.state ==> r["color"] == Null
  {
    map["color" := if ColorKey in ctx.state then ctx.state[ColorKey] else Null]
  }

  /** Reading after writing returns the colour just written. */
  lemma SetThenGet(color: string, ctx: ToolContext)
    ensures GetStateColor(SetStateColor(color, ctx).0) == map["color" := Str(color)]
  {
  }

  /** Setting the same colour twice is the same as setting it once. */
  lemma SetStateColorIdempotent(color: string, ctx: ToolContext)
    ensures SetStateColor(color, SetStateColor(color, ctx).0) == SetStateColor(color, ctx)
  {
    var once := ctx.state[ColorKey := Str(color)];
    assert once[ColorKey := Str(color)] == once;
  }

  /** A later colour overwrites an earlier one completely. */
  lemma SetStateColorOverwrites(first: string, second: string, ctx: ToolContext)
    ensures SetStateColor(second, SetStateColor(first, ctx).0).0 == SetStateColor(second, ctx).0
  {
  }

  /** `exit_loop`: raises the escalate flag, leaves state alone and returns an empty dict. */
  function ExitLoop(ctx: ToolContext): (r: (ToolContext, Dict))
    ensures r.0.escalate
    ensures r.0.state == ctx.state
    ensures r.1 == map[]
  {
    (ctx.(escalate := true), map[])
  }

  /** Calling `exit_loop` again after it has escalated changes nothing. */
  lemma ExitLoopIdempotent(ctx: ToolContext)
    ensures ExitLoop(ExitLoop(ctx).0) == ExitLoop(ctx)
  {
  }
}

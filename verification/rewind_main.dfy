/**
  The driver of the rewind demo: one user turn is sent, events are collected in
  stream order until the first final response, whose text is shown as the
  agent's reply.
 */
module RewindMain {
  import opened Values
  import opened Events

  /** The reply text shown for a final response: the first part's text, or `""`. */
  function ReplyText(ev: Event): (text: string)
    ensures |Parts(ev)| == 0 ==> text == ""
    ensures |Parts(ev)| > 0 && Parts(ev)[0].text.Some? ==> text == Parts(ev)[0].text.value
    ensures |Parts(ev)| > 0 && Parts(ev)[0].text.None? ==> text == ""
  {
    if |Parts(ev)| > 0 then
      match Parts(ev)[0].text
      case Some(t) => t
      case None => ""
    else ""
  }

  /**
    `call_agent_async` over a finite event stream: the events collected are the
    stream up to and including its first final response, or the whole stream
    when there is none; `reply` is the text shown for that final response.
   */
  method CallAgent(stream: seq<Event>, isFinal: Event -> bool) returns (events: seq<Event>, reply: Option<string>)
    ensures events <= stream
    ensures forall i | 0 <= i < |events| - 1 :: !isFinal(events[i])
    ensures events == stream || (|events| > 0 && isFinal(events[|events| - 1]))
    ensures reply.Some? <==> |events| > 0 && isFinal(events[|events| - 1])
    ensures reply.Some? ==> reply.value == ReplyText(events[|events| - 1])
  {
    events := [];
    reply := None;
    var k := 0;
    while k < |stream|
      invariant 0 <= k <= |stream|
      invariant events == stream[..k]
      invariant forall i | 0 <= i < k :: !isFinal(stream[i])
      invariant reply == None
    {
      var event := stream[k];
      events := events + [event];
      if isFinal(event) {
        reply := Some(ReplyText(event));
        return;
      }
      k := k + 1;
    }
    assert stream[..k] == stream;
  }

  /** The first final response of the stream, when the stream has one, ends the collected events. */
  lemma CallAgentStopsAtFirstFinal(stream: seq<Event>, isFinal: Event -> bool, events: seq<Event>, j: nat)
    requires events <= stream
    requires forall i | 0 <= i < |events| - 1 :: !isFinal(events[i])
    requires events == stream || (|events| > 0 && isFinal(events[|events| - 1]))
    requires j < |stream| && isFinal(stream[j]) && forall i | 0 <= i < j :: !isFinal(stream[i])
    ensures events == stream[..j + 1]
  {
  }
}

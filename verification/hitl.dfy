/**
  The human-in-the-loop confirmation demo: spotting the runner's confirmation
  request in an event, scanning the first run for it, parsing the operator's
  yes/no answer, and building the confirmation response that resumes the run.
 */
module Hitl {
  import opened Values
  import opened Text
  import opened Events

  /** The function name the runner uses for confirmation requests and expects back. */
  const ConfirmationName := "adk_request_confirmation"

  /** A part whose `function_call` is a confirmation request with a non-empty id. */
  predicate IsConfirmationRequest(p: Part) {
    p.functionCall.Some? && p.functionCall.value.name == Present(ConfirmationName)
    && NonEmpty(p.functionCall.value.id)
  }

  predicate NoRequestBefore(parts: seq<Part>, i: int)
    requires 0 <= i <= |parts|
  {
    forall j | 0 <= j < i :: !IsConfirmationRequest(parts[j])
  }

  /** The first confirmation request among `parts`, as `(id, name)`. */
  function FirstConfirmation(parts: seq<Part>): (r: Option<(string, string)>)
    ensures r.None? <==> NoRequestBefore(parts, |parts|)
    ensures r.Some? ==> r.value.0 != "" && r.value.1 == ConfirmationName
  {
    if |parts| == 0 then None
    else
      var fc := parts[0].functionCall;
      if fc.None? then
        assert NoRequestBefore(parts, |parts|) <==> NoRequestBefore(parts[1..], |parts| - 1);
        FirstConfirmation(parts[1..])
      else if fc.value.name == Present(ConfirmationName) && NonEmpty(fc.value.id) then
        Some((fc.value.id.value, ConfirmationName))
      else
        assert NoRequestBefore(parts, |parts|) <==> NoRequestBefore(parts[1..], |parts| - 1);
        FirstConfirmation(parts[1..])
  }

  /**
    The confirmation request carried by an event, if any: `None` for an event
    without content or parts, otherwise the id of its first request part.
   */
  function ExtractConfirmationCall(ev: Event): (r: Option<(string, string)>)
    ensures |Parts(ev)| == 0 ==> r.None?
    ensures r.None? <==> NoRequestBefore(Parts(ev), |Parts(ev)|)
    ensures r.Some? ==> r.value.0 != "" && r.value.1 == ConfirmationName
  {
    if |Parts(ev)| == 0 then None else FirstConfirmation(Parts(ev))
  }

  /** The id returned is that of the first request part; parts before it are skipped. */
  lemma {:induction false} FirstConfirmationIsFirst(parts: seq<Part>, i: nat)
    requires i < |parts| && IsConfirmationRequest(parts[i]) && NoRequestBefore(parts, i)
    ensures FirstConfirmation(parts) == Some((parts[i].functionCall.value.id.value, ConfirmationName))
  {
    if i > 0 {
      assert NoRequestBefore(parts[1..], i - 1);
      FirstConfirmationIsFirst(parts[1..], i - 1);
    }
  }

  /** The event-level reading: the first request part of the event determines the result. */
  lemma ExtractConfirmationCallIsFirst(ev: Event, i: nat)
    requires i < |Parts(ev)| && IsConfirmationRequest(Parts(ev)[i]) && NoRequestBefore(Parts(ev), i)
    ensures ExtractConfirmationCall(ev) == Some((Parts(ev)[i].functionCall.value.id.value, ConfirmationName))
  {
    FirstConfirmationIsFirst(Parts(ev), i);
  }

  /** The message that approves or denies the pending tool call. */
  function MakeConfirmationResponse(functionCallId: string, confirmed: bool): (c: Content)
    ensures c.role == Some("user") && |ContentParts(c)| == 1
    ensures ContentParts(c)[0].functionResponse.Some?
    ensures ContentParts(c)[0].functionResponse.value.id == Some(functionCallId)
    ensures ContentParts(c)[0].functionResponse.value.name == Some(ConfirmationName)
    ensures ContentParts(c)[0].functionResponse.value.response == Some(map["confirmed" := Bool(confirmed)])
    ensures ContentParts(c)[0].text.None? && ContentParts(c)[0].functionCall.None? && ContentParts(c)[0].toolCall.None?
  {
    var response := FunctionResponse(Some(functionCallId), Some(ConfirmationName), Some(map["confirmed" := Bool(confirmed)]));
    Content(Some("user"), Some([Part(None, None, None, Some(response))]))
  }

  /**
    Reads a confirmation response back: a user message with exactly one part
    that carries only a function response, named for confirmation, whose
    payload is exactly a boolean "confirmed".
   */
  function ReadConfirmationResponse(c: Content): Option<(string, bool)> {
    if c.role == Some("user") && |ContentParts(c)| == 1 && ContentParts(c)[0].functionResponse.Some?
      && ContentParts(c)[0].text.None? && ContentParts(c)[0].functionCall.None? && ContentParts(c)[0].toolCall.None?
    then
      var fr := ContentParts(c)[0].functionResponse.value;
      if fr.name == Some(ConfirmationName) && fr.id.Some? && fr.response.Some?
        && fr.response.value.Keys == {"confirmed"} && fr.response.value["confirmed"].Bool?
      then Some((fr.id.value, fr.response.value["confirmed"].b))
      else None
    else None
  }

  /** Building a response and reading it back recovers the call id and the decision. */
  lemma ConfirmationResponseRoundTrip(functionCallId: string, confirmed: bool)
    ensures ReadConfirmationResponse(MakeConfirmationResponse(functionCallId, confirmed)) == Some((functionCallId, confirmed))
    ensures
      var c := MakeConfirmationResponse(functionCallId, confirmed);
      |ContentParts(c)| == 1 && !HasText(ContentParts(c)[0]) && !IsConfirmationRequest(ContentParts(c)[0])
  {
  }

  /** "y" or "yes", in any letter case. */
  predicate IsYes(s: string) {
    Lower(s) == "y" || Lower(s) == "yes"
  }

  /** The operator's answer, stripped and lower-cased, is "y" or "yes". */
  function Approved(raw: string): (ok: bool)
    ensures ok <==> IsYes(Strip(raw))
    ensures ok ==> !AllSpace(raw) && |Strip(raw)| in {1, 3}
  {
    var answer := Lower(Strip(raw));
    answer in {"y", "yes"}
  }

  /** An approved answer is a yes-word surrounded only by whitespace. */
  lemma {:induction false} ApprovedIsPaddedYes(raw: string) returns (i: nat, j: nat)
    requires Approved(raw)
    ensures i <= j <= |raw| && AllSpace(raw[..i]) && AllSpace(raw[j..])
    ensures IsYes(raw[i..j])
  {
    i := StripSplit(raw);
    j := i + |Strip(raw)|;
  }

  /** A yes-word in any letter case, padded only with whitespace, approves; so every other answer denies. */
  lemma {:induction false} PaddedYesIsApproved(raw: string, i: nat, j: nat)
    requires i <= j <= |raw| && AllSpace(raw[..i]) && AllSpace(raw[j..])
    requires IsYes(raw[i..j])
    ensures Approved(raw)
  {
    var core := raw[i..j];
    assert |core| > 0 && !IsSpace(core[0]) && !IsSpace(core[|core| - 1]) by {
      assert Lower(core)[0] == LowerChar(core[0]);
      assert Lower(core)[|core| - 1] == LowerChar(core[|core| - 1]);
    }
    assert raw == raw[..i] + core + raw[j..];
    StripPadded(raw[..i], core, raw[j..]);
  }

  /** How the first run ended, and at which event the scan stopped. */
  datatype Phase1Outcome =
    | Paused(callId: string, at: nat)
    | CompletedWithoutConfirmation(at: nat)
    | NoConfirmationRequest

  /** Neither a confirmation request nor a final response occurs among the first `k` events. */
  predicate QuietBefore(stream: seq<Event>, isFinal: Event -> bool, k: int)
    requires 0 <= k <= |stream|
  {
    forall j | 0 <= j < k :: ExtractConfirmationCall(stream[j]).None? && !isFinal(stream[j])
  }

  /**
    The first run's loop from event `from` on: stop at the first event carrying
    a confirmation request; otherwise stop at the first final response; run out
    of events without either.
   */
  function ScanFrom(stream: seq<Event>, isFinal: Event -> bool, from: nat): (r: Phase1Outcome)
    requires from <= |stream| && QuietBefore(stream, isFinal, from)
    ensures r.Paused? ==>
      && r.at < |stream| && QuietBefore(stream, isFinal, r.at)
      && ExtractConfirmationCall(stream[r.at]) == Some((r.callId, ConfirmationName))
    ensures r.CompletedWithoutConfirmation? ==>
      && r.at < |stream| && QuietBefore(stream, isFinal, r.at)
      && ExtractConfirmationCall(stream[r.at]).None? && isFinal(stream[r.at])
    ensures r.NoConfirmationRequest? <==> QuietBefore(stream, isFinal, |stream|)
    decreases |stream| - from
  {
    if from == |stream| then NoConfirmationRequest
    else
      var ev := stream[from];
      match ExtractConfirmationCall(ev)
      case Some(call) => Paused(call.0, from)
      case None =>
        if isFinal(ev) then CompletedWithoutConfirmation(from)
        else ScanFrom(stream, isFinal, from + 1)
  }

  /** Phase 1 of the demo over the whole stream of the first run. */
  function Phase1Scan(stream: seq<Event>, isFinal: Event -> bool): Phase1Outcome {
    ScanFrom(stream, isFinal, 0)
  }

  /**
    The message that resumes the run: present only when phase 1 paused, and then
    answering the paused call id with the operator's decision.
   */
  function ResumeMessage(outcome: Phase1Outcome, raw: string): (r: Option<Content>)
    ensures r.Some? <==> outcome.Paused?
    ensures outcome.Paused? ==> ReadConfirmationResponse(r.value) == Some((outcome.callId, Approved(raw)))
  {
    match outcome
    case Paused(callId, _) =>
      ConfirmationResponseRoundTrip(callId, Approved(raw));
      Some(MakeConfirmationResponse(callId, Approved(raw)))
    case _ => None
  }

  /**
    The resume message answers the first confirmation request of the first run,
    provided no final response came before it.
   */
  lemma ResumeAnswersFirstRequest(stream: seq<Event>, isFinal: Event -> bool, i: nat, raw: string)
    requires i < |stream| && QuietBefore(stream, isFinal, i)
    requires ExtractConfirmationCall(stream[i]).Some?
    ensures
      var resume := ResumeMessage(Phase1Scan(stream, isFinal), raw);
      resume.Some? && ReadConfirmationResponse(resume.value) == Some((ExtractConfirmationCall(stream[i]).value.0, Approved(raw)))
  {
  }
}

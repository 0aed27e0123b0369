/**
  The deterministic pieces of the sequential customer-service pipeline: the mock
  database lookup, the backward scan for the latest user message, and one run of
  the custom data-fetcher agent between the classifier and the responder.
 */
module SeqAgent {
  import opened Values
  import opened Text
  import opened Events

  const SupportResult := "Support ticket #12345: Login authentication issue - reset password at https://example.com/reset"
  const SalesResult := "Sales opportunity: Enterprise plan upgrade - contact sales@example.com"
  const TechnicalResult := "Technical docs: API authentication guide - see https://docs.example.com/auth"
  const NoResults := "No results found"

  /** The mock table, keyed by classified intent. */
  const MockResults: map<string, string> :=
    map["support" := SupportResult, "sales" := SalesResult, "technical" := TechnicalResult]

  /** The simulated lookup: the category alone selects the answer; the query is never consulted. */
  function DatabaseSearch(query: string, category: string): (r: string)
    ensures category == "support" ==> r == SupportResult
    ensures category == "sales" ==> r == SalesResult
    ensures category == "technical" ==> r == TechnicalResult
    ensures category !in {"support", "sales", "technical"} ==> r == NoResults
  {
    if category in MockResults then MockResults[category] else NoResults
  }

  /** No part before index `i` carries non-empty text. */
  predicate NoTextBefore(parts: seq<Part>, i: int)
    requires 0 <= i <= |parts|
  {
    forall j | 0 <= j < i :: !HasText(parts[j])
  }

  /** The text of the first part, in order, whose text is non-empty; `None` if there is none. */
  function FirstText(parts: seq<Part>): (r: Option<string>)
    ensures r.None? <==> NoTextBefore(parts, |parts|)
    ensures r.Some? ==> r.value != ""
  {
    if |parts| == 0 then None
    else if HasText(parts[0]) then parts[0].text
    else
      var r := FirstText(parts[1..]);
      assert NoTextBefore(parts, |parts|) <==> NoTextBefore(parts[1..], |parts| - 1);
      r
  }

  /** The text found is that of the first part, in order, with non-empty text. */
  lemma {:induction false} FirstTextIsFirst(parts: seq<Part>, i: nat)
    requires i < |parts| && HasText(parts[i]) && NoTextBefore(parts, i)
    ensures FirstText(parts) == parts[i].text
  {
    if i > 0 {
      assert NoTextBefore(parts[1..], i - 1);
      FirstTextIsFirst(parts[1..], i - 1);
    }
  }

  /** A user-authored event with at least one non-empty text part. */
  predicate IsUserText(ev: Event) {
    ev.author == "user" && FirstText(Parts(ev)).Some?
  }

  /** No event after index `i` is a user text event. */
  predicate NoUserTextAfter(events: seq<Event>, i: int)
    requires -1 <= i < |events|
  {
    forall j | i < j < |events| :: !IsUserText(events[j])
  }

  /**
    The most recent user message: the first non-empty text part of the last
    user-authored event that has one, or `""` when no event qualifies.
   */
  function LatestUserText(events: seq<Event>): (r: string)
    ensures r == "" <==> NoUserTextAfter(events, -1)
  {
    if |events| == 0 then ""
    else
      var n := |events| - 1;
      var ev := events[n];
      var rest := LatestUserText(events[..n]);
      NoUserTextAfterLast(events);
      if ev.author == "user" && |Parts(ev)| > 0 && FirstText(Parts(ev)).Some? then
        FirstText(Parts(ev)).value
      else
        assert forall i | 0 <= i < n :: events[..n][i] == events[i];
        rest
  }

  /** The latest user text is taken from the last user text event, not from any earlier one. */
  lemma {:induction false} LatestUserTextIsLast(events: seq<Event>, i: nat)
    requires i < |events| && IsUserText(events[i]) && NoUserTextAfter(events, i)
    ensures LatestUserText(events) == FirstText(Parts(events[i])).value
  {
    var n := |events| - 1;
    if i < n {
      var prefix := events[..n];
      assert !IsUserText(events[n]);
      assert LatestUserText(events) == LatestUserText(prefix);
      assert NoUserTextAfter(prefix, i) by {
        forall j | i < j < n
          ensures !IsUserText(prefix[j])
        {
          assert prefix[j] == events[j];
        }
      }
      assert prefix[i] == events[i];
      LatestUserTextIsLast(prefix, i);
    }
  }

  lemma NoUserTextAfterLast(events: seq<Event>)
    requires |events| > 0
    ensures var n := |events| - 1;
      forall i | -1 <= i < n :: NoUserTextAfter(events, i) <==> !IsUserText(events[n]) && NoUserTextAfter(events[..n], i)
  {
  }

  /** An event not authored by the user leaves the latest user text unchanged. */
  lemma LatestUserTextIgnoresOthers(events: seq<Event>, ev: Event)
    requires ev.author != "user"
    ensures LatestUserText(events + [ev]) == LatestUserText(events)
  {
  }

  /** What one run of the data fetcher leaves behind: the new state and the events it yielded. */
  datatype FetchStep = FetchStep(state: Dict, emitted: seq<Event>)

  const FetcherName := "data_fetcher"
  const CategoryKey := "category"
  const SearchResultsKey := "search_results"

  /** The progress event the fetcher yields: authored by it, carrying the search result as its only text. */
  function FetcherEvent(invocationId: string, result: string): (ev: Event)
    ensures ev.author == FetcherName && ev.invocationId == invocationId
    ensures ev.content == Some(Content(None, Some([TextPart(result)])))
    ensures Parts(ev) == [TextPart(result)]
    ensures FirstText(Parts(ev)) == (if result == "" then None else Some(result))
  {
    Event(invocationId, FetcherName, Some(Content(None, Some([TextPart(result)]))))
  }

  /** `state["search_results"] = result`: one key set, every other key kept. */
  function StoreResult(state: Dict, result: string): (r: Dict)
    ensures r.Keys == state.Keys + {SearchResultsKey}
    ensures r[SearchResultsKey] == Str(result)
    ensures forall k | k in state && k != SearchResultsKey :: r[k] == state[k]
  {
    state[SearchResultsKey := Str(result)]
  }

  /**
    One run of the data fetcher. Reading `state.get("category").strip()` raises
    unless the category is present and is a string; otherwise the stripped
    category and the latest user text are looked up, the result is stored under
    "search_results", and a single text event authored by the fetcher is yielded.
   */
  function DataFetcherRun(state: Dict, history: seq<Event>, invocationId: string): (r: Result<FetchStep>)
    ensures r.Ok? <==> CategoryKey in state && state[CategoryKey].Str?
    ensures r.Ok? ==> r.value.state.Keys == state.Keys + {SearchResultsKey}
    ensures r.Ok? ==> forall k | k in state && k != SearchResultsKey :: r.value.state[k] == state[k]
    ensures r.Ok? ==>
      r.value.state[SearchResultsKey] == Str(DatabaseSearch(LatestUserText(history), Strip(state[CategoryKey].s)))
    ensures r.Ok? ==>
      && |r.value.emitted| == 1
      && r.value.emitted[0].author == FetcherName
      && r.value.emitted[0].invocationId == invocationId
      && r.value.emitted[0].content == Some(Content(None, Some([TextPart(r.value.state[SearchResultsKey].s)])))
      && FirstText(Parts(r.value.emitted[0])) == Some(r.value.state[SearchResultsKey].s)
  {
    if CategoryKey !in state then Err("AttributeError: 'NoneType' object has no attribute 'strip'")
    else match state[CategoryKey]
      case Str(raw) =>
        var category := Strip(raw);
        var query := LatestUserText(history);
        var result := DatabaseSearch(query, category);
        Ok(FetchStep(StoreResult(state, result), [FetcherEvent(invocationId, result)]))
      case _ => Err("AttributeError: object has no attribute 'strip'")
  }

  /**
    Running the fetcher again on the state and history it produced changes
    nothing: its own event is not a user message, and it rewrites the same value.
   */
  lemma DataFetcherIdempotent(state: Dict, history: seq<Event>, invocationId: string)
    requires DataFetcherRun(state, history, invocationId).Ok?
    ensures
      var step := DataFetcherRun(state, history, invocationId).value;
      var again := DataFetcherRun(step.state, history + step.emitted, invocationId);
      again.Ok? && again.value.state == step.state
  {
  }
}

/** The three operations that wrap a form-service call: each dispatches a fixed
    list of actions around the call and calls its completion callback once. The
    service's answer is a parameter, and so is the project's base URL. */
module Operations {
  import opened Options
  import opened SubmissionState
  import opened SubmissionActions
  import opened Reducer
  import opened Urls

  /** How the external call settled. */
  datatype Outcome<T> = Resolved(value: T) | Rejected(error: string)

  /** The arguments the completion callback receives: `(null, result)`,
      `(null, true)` after a delete, or `(error)`. */
  datatype Completion = Returned(result: Payload) | Deleted | Errored(error: string)

  /** One observable effect of an operation, in program order. */
  datatype Event = Dispatch(action: Action) | Done(args: Completion)

  /** The URL the client is built with, and the effects in the order they happen. */
  datatype Effects = Effects(clientUrl: string, trace: seq<Event>)

  /** The actions of a trace, in order. */
  function Dispatched(trace: seq<Event>): (r: seq<Action>)
    ensures |r| <= |trace|
    ensures forall a :: a in r <==> Dispatch(a) in trace
  {
    if trace == [] then []
    else (if trace[0].Dispatch? then [trace[0].action] else []) + Dispatched(trace[1..])
  }

  /** The callback invocations of a trace, in order. */
  function Completions(trace: seq<Event>): (r: seq<Completion>)
    ensures |r| + |Dispatched(trace)| == |trace|
    ensures forall c :: c in r <==> Done(c) in trace
  {
    if trace == [] then []
    else (if trace[0].Done? then [trace[0].args] else []) + Completions(trace[1..])
  }

  /** The callback is called exactly once, as the last effect. */
  ghost predicate DoneOnceLast(trace: seq<Event>) {
    |Completions(trace)| == 1 && |trace| > 0 && trace[|trace| - 1].Done?
  }

  /** The traces the operations produce: optionally a pending action, then the
      settling action, then the callback. */
  lemma TraceOfSettledCall(trace: seq<Event>)
    requires |trace| == 2 || |trace| == 3
    requires forall i :: 0 <= i < |trace| - 1 ==> trace[i].Dispatch?
    requires trace[|trace| - 1].Done?
    ensures |trace| == 2 ==> Dispatched(trace) == [trace[0].action]
    ensures |trace| == 3 ==> Dispatched(trace) == [trace[0].action, trace[1].action]
    ensures Completions(trace) == [trace[|trace| - 1].args]
  {
    var last := trace[|trace| - 1..];
    assert last[1..] == [];
    if |trace| == 3 {
      assert trace[1..][1..] == last;
    } else {
      assert trace[1..] == last;
    }
  }

  /** Loads submission `id` of form `formId`: a request, then a success or a failure. */
  function GetSubmission(base: string, id: string, formId: string, outcome: Outcome<Payload>): (r: Effects)
    ensures r.clientUrl == SubmissionUrl(base, formId, id)
    ensures DoneOnceLast(r.trace)
    ensures outcome.Resolved? ==> Completions(r.trace) == [Returned(outcome.value)]
    ensures outcome.Rejected? ==> Completions(r.trace) == [Errored(outcome.error)]
    ensures |Dispatched(r.trace)| == 2 && Dispatched(r.trace)[0] == RequestSubmission(id, formId, r.clientUrl)
    ensures outcome.Resolved? ==> Dispatched(r.trace)[1] == ReceiveSubmission(outcome.value, None)
    ensures outcome.Rejected? ==> Dispatched(r.trace)[1] == FailSubmission(outcome.error)
  {
    var url := SubmissionUrl(base, formId, id);
    var settle := match outcome
      case Resolved(result) => [Dispatch(ReceiveSubmission(result, None)), Done(Returned(result))]
      case Rejected(error) => [Dispatch(FailSubmission(error)), Done(Errored(error))];
    var trace := [Dispatch(RequestSubmission(id, formId, url))] + settle;
    TraceOfSettledCall(trace);
    Effects(url, trace)
  }

  /** Creates (no truthy `_id`) or updates (truthy `_id`) a submission: a
      field-less save, then a success carrying the record's canonical URL, or a failure. */
  function SaveSubmission(base: string, data: Payload, formId: string, outcome: Outcome<Payload>): (r: Effects)
    ensures r.clientUrl == SaveUrl(base, formId, data.id)
    ensures DoneOnceLast(r.trace)
    ensures outcome.Resolved? ==> Completions(r.trace) == [Returned(outcome.value)]
    ensures outcome.Rejected? ==> Completions(r.trace) == [Errored(outcome.error)]
    ensures |Dispatched(r.trace)| == 2 && Dispatched(r.trace)[0] == SendSubmission(data)
    ensures outcome.Resolved? ==>
              Dispatched(r.trace)[1] == Success(outcome.value, Some(SubmissionUrl(base, formId, Interpolate(outcome.value.id))))
    ensures outcome.Rejected? ==> Dispatched(r.trace)[1] == FailSubmission(outcome.error)
  {
    var settle := match outcome
      case Resolved(result) =>
        var url := SubmissionUrl(base, formId, Interpolate(result.id));
        [Dispatch(ReceiveSubmission(result, Some(url))), Done(Returned(result))]
      case Rejected(error) => [Dispatch(FailSubmission(error)), Done(Errored(error))];
    var trace := [Dispatch(SendSubmission(data))] + settle;
    TraceOfSettledCall(trace);
    Effects(SaveUrl(base, formId, data.id), trace)
  }

  /** Deletes submission `id` of form `formId`: no pending action, then a reset or a failure. */
  function DeleteSubmission(base: string, id: string, formId: string, outcome: Outcome<()>): (r: Effects)
    ensures r.clientUrl == SubmissionUrl(base, formId, id)
    ensures DoneOnceLast(r.trace)
    ensures outcome.Resolved? ==> Completions(r.trace) == [Deleted]
    ensures outcome.Rejected? ==> Completions(r.trace) == [Errored(outcome.error)]
    ensures outcome.Resolved? ==> Dispatched(r.trace) == [Reset]
    ensures outcome.Rejected? ==> Dispatched(r.trace) == [Failure(outcome.error)]
  {
    var settle := match outcome
      case Resolved(_) => [Dispatch(ResetSubmission()), Done(Deleted)]
      case Rejected(error) => [Dispatch(FailSubmission(error)), Done(Errored(error))];
    TraceOfSettledCall(settle);
    Effects(SubmissionUrl(base, formId, id), settle)
  }

  // ---------------------------------------------------------------------------
  // What each operation leaves in the store

  /** After a load the store points at the read URL and is no longer pending; on
      success it holds the record and its `_id`, on failure the error. In between,
      the store is pending with no record. */
  lemma GetSubmissionFinalState(s: State, base: string, id: string, formId: string, outcome: Outcome<Payload>)
    ensures var actions := Dispatched(GetSubmission(base, id, formId, outcome).trace);
      var pending := Run(s, actions[..1]);
      pending.isActive && pending.submission == EmptyPayload
    ensures var t := Run(s, Dispatched(GetSubmission(base, id, formId, outcome).trace));
      && t.formId == Some(formId)
      && t.url == Some(SubmissionUrl(base, formId, id))
      && !t.isActive
      && t.lastUpdated == s.lastUpdated
      && (outcome.Resolved? ==>
            t.id == outcome.value.id && t.submission == outcome.value
            && t.error == "" && t.isInvalid == s.isInvalid)
      && (outcome.Rejected? ==>
            t.id == Some(id) && t.submission == EmptyPayload
            && t.error == outcome.error && t.isInvalid == Some(true))
  {
    var actions := Dispatched(GetSubmission(base, id, formId, outcome).trace);
    RunPair(s, actions);
  }

  /** After a save, `formId` and `id` are left as the field-less save action set
      them unless the call succeeds, which restores `id` from the returned record;
      the URL is the one the store had before, in both cases. */
  lemma SaveSubmissionFinalState(s: State, base: string, data: Payload, formId: string, outcome: Outcome<Payload>)
    ensures var t := Run(s, Dispatched(SaveSubmission(base, data, formId, outcome).trace));
      && t.formId.None?
      && t.url == s.url
      && !t.isActive
      && (outcome.Resolved? ==>
            t.id == outcome.value.id && t.submission == outcome.value
            && t.error == "" && t.isInvalid == s.isInvalid)
      && (outcome.Rejected? ==>
            t.id.None? && t.submission == EmptyPayload
            && t.error == outcome.error && t.isInvalid == Some(true))
  {
    var actions := Dispatched(SaveSubmission(base, data, formId, outcome).trace);
    RunPair(s, actions);
  }

  /** A successful delete returns the store to its initial state whatever it held;
      a failed one only records the failure. */
  lemma DeleteSubmissionFinalState(s: State, base: string, id: string, formId: string, outcome: Outcome<()>)
    ensures var t := Run(s, Dispatched(DeleteSubmission(base, id, formId, outcome).trace));
      && (outcome.Resolved? ==> t == Initial)
      && (outcome.Rejected? ==>
            !t.isActive && t.isInvalid == Some(true) && t.error == outcome.error
            && UnchangedExcept(s, t, {IsActive, IsInvalid, Error}))
  {
  }

  lemma RunPair(s: State, actions: seq<Action>)
    requires |actions| == 2
    ensures Run(s, actions) == Step(Step(s, actions[0]), actions[1])
    ensures Run(s, actions[..1]) == Step(s, actions[0])
  {
    assert actions[1..][0] == actions[1];
    assert actions[1..][1..] == [];
    assert Run(s, actions) == Run(Step(s, actions[0]), actions[1..]);
    assert Run(Step(s, actions[0]), actions[1..]) == Step(Step(s, actions[0]), actions[1]);
    assert actions[..1][0] == actions[0];
    assert actions[..1][1..] == [];
  }

  /** A load that the service answers with a record whose `_id` is the requested
      one leaves that record, its id and the read URL in the store. */
  lemma GetSubmissionScenario(base: string, fields: map<string, string>)
    ensures var result := Payload(Some("s1"), fields);
      var e := GetSubmission(base, "s1", "f1", Resolved(result));
      var t := Run(Initial, Dispatched(e.trace));
      && t.id == Some("s1") && t.submission == result && !t.isActive && t.error == ""
      && t.url == Some(base + "/form/f1/submission/s1")
      && Completions(e.trace) == [Returned(result)]
  {
    var result := Payload(Some("s1"), fields);
    ScenarioUrls(base);
    var e := GetSubmission(base, "s1", "f1", Resolved(result));
    GetSubmissionFinalState(Initial, base, "s1", "f1", Resolved(result));
    var t := Run(Initial, Dispatched(e.trace));
    assert t.url == Some(SubmissionUrl(base, "f1", "s1"));
  }

  /** A create from the initial state: the client is built with the collection URL,
      the success action carries `.../submission/new1`, the store takes id `new1`,
      but its URL stays the initial empty one. */
  lemma SaveSubmissionScenario(base: string, fields: map<string, string>)
    ensures var result := Payload(Some("new1"), map[]);
      var e := SaveSubmission(base, Payload(None, fields), "f1", Resolved(result));
      var t := Run(Initial, Dispatched(e.trace));
      && e.clientUrl == base + "/form/f1/submission"
      && Dispatched(e.trace)[1].url == Some(base + "/form/f1/submission/new1")
      && t.id == Some("new1") && t.url == Some("")
  {
    var result := Payload(Some("new1"), map[]);
    ScenarioUrls(base);
    var e := SaveSubmission(base, Payload(None, fields), "f1", Resolved(result));
    SaveSubmissionFinalState(Initial, base, Payload(None, fields), "f1", Resolved(result));
    assert e.clientUrl == CollectionUrl(base, "f1");
    assert Dispatched(e.trace)[1].url == Some(SubmissionUrl(base, "f1", "new1"));
  }

  /** The URLs of the two scenarios, written out. */
  lemma ScenarioUrls(base: string)
    ensures SubmissionUrl(base, "f1", "s1") == base + "/form/f1/submission/s1"
    ensures SubmissionUrl(base, "f1", "new1") == base + "/form/f1/submission/new1"
    ensures CollectionUrl(base, "f1") == base + "/form/f1/submission"
  {
  }
}

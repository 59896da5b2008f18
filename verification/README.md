# Submission store: a verified model

This project models the submission store of a React starter kit
(`src/modules/forms/submission/submissionContext.js`). The store tracks one form
submission: it loads the submission, saves it and deletes it against a form
service, and records whether a call is pending and whether it failed.

The model has three layers:

- **The reducer** (`Reducer.Step`). It maps a state and one of six actions to the
  next state. `Reducer.Run` folds it over a sequence of dispatches.
- **The action creators** (`SubmissionActions`). They build those actions.
- **The three operations** (`Operations.GetSubmission`, `SaveSubmission`,
  `DeleteSubmission`). Each one builds the client URL (`Urls`) and returns the
  effects it produces in order: the actions it dispatches and the one call of
  its completion callback.

The form service's answer is a parameter, `Outcome` (`Resolved(value)` or
`Rejected(error)`). So is the project base URL, `base`.

JavaScript values are modelled this way:

- A property that may be `undefined` (`formId`, `id`, `url`, an action's
  fields) is an `Option<string>`.
- "Truthy" means `Some(s)` with `s != ""` (`Options.Truthy`).
- `a || b` is `Options.Or`.
- The `isInvalid` key is absent from the initial state, so it is an
  `Option<bool>`.
- A submission record is a `Payload`: an optional `_id` plus other keys that
  are never inspected.
- Error values are strings that are stored as they are.

Modules:

| file | module | contents |
|---|---|---|
| options.dfy | `Options` | `Option`, truthiness, `||`, template-literal rendering |
| state.dfy | `SubmissionState` | `Payload`, `State`, the initial state, field names and frames, the state invariant |
| actions.dfy | `SubmissionActions` | the `Action` union, its `type` tags, the action creators |
| reducer.dfy | `Reducer` | `Step`, `Run`, per-action lemmas, lemmas over action histories |
| urls.dfy | `Urls` | the read/delete, create and update URLs and a parser that inverts them |
| operations.dfy | `Operations` | the three operations, the state each one leaves behind, two worked scenarios |

Each property has a partner in the model:

- **A write set** (`Reducer.Writes`). `Step` is proved to change no field
  outside the write set of its action.
- **An invariant** (`SubmissionState.Consistent`). No record is stored while a
  call is pending, and `isInvalid` is never `false`. Every step and every run
  preserves it.
- **A backward "last writer wins" reference** (`Reducer.LastSet`). The value of
  `isInvalid`, `error` and `isActive` after any history is proved equal to the
  value computed by this reference.
- **A URL parser** (`Urls.ParseSubmissionUrl`). It inverts URL construction.

## Behaviour worth noting

- **A successful save does not store the canonical URL.** The save operation
  passes `.../submission/<returned id>` in its success action (line 140), but
  the `SUBMISSION_SUCCESS` case never reads `action.url` (lines 41-48). The
  store keeps the URL it had before the save. `Operations.SaveSubmissionScenario`
  shows this: a create from the initial state ends with `url == ""` and
  `id == "new1"`.
- **The save action carries no fields.** The action creator at lines 95-97
  builds an object with only `type`. Dispatching it sets `formId` and `id` to
  `undefined` and keeps the old URL (lines 32-40). A successful save restores
  `id` from the returned record; `formId` stays `undefined`.
- **`isInvalid` is sometimes absent.** The initial state has no such key
  (lines 6-14). It appears only when a failure is dispatched (line 53) and
  disappears only on reset (lines 56-57); nothing sets it to `false`.

## Model

| member | source | states |
|---|---|---|
| `Options.Or` | src/modules/forms/submission/submissionContext.js:37 | JavaScript's logical or yields one of its operands: the first when it is truthy, otherwise the second; the result is truthy iff either operand is |
| `Options.Interpolate` | src/modules/forms/submission/submissionContext.js:140 | a template literal renders a defined id as the id itself and `undefined` as the text `undefined` |
| `SubmissionActions.TypeOf` | src/modules/forms/submission/submissionContext.js:84-112 | an action's `type` tag is one of the six the reducer handles exactly when the action is not an unrecognised one |
| `SubmissionActions.TypeOfDistinguishesKinds` | src/modules/forms/submission/submissionContext.js:17-59 | two actions with the same `type` tag are of the same kind, so the switch selects one case per kind |
| `SubmissionActions.ClearSubmissionError` | src/modules/forms/submission/submissionContext.js:84-86 | builds an action tagged `SUBMISSION_CLEAR_ERROR` |
| `SubmissionActions.RequestSubmission` | src/modules/forms/submission/submissionContext.js:88-93 | builds a request tagged `SUBMISSION_REQUEST` that carries the given id, form id and URL |
| `SubmissionActions.SendSubmission` | src/modules/forms/submission/submissionContext.js:95-97 | builds a save tagged `SUBMISSION_SAVE` that carries no id, form id or URL, whatever data it is given |
| `SubmissionActions.ReceiveSubmission` | src/modules/forms/submission/submissionContext.js:99-103 | builds a success tagged `SUBMISSION_SUCCESS` that carries the record and the optional URL |
| `SubmissionActions.FailSubmission` | src/modules/forms/submission/submissionContext.js:105-108 | builds a failure tagged `SUBMISSION_FAILURE` that carries the error |
| `SubmissionActions.ResetSubmission` | src/modules/forms/submission/submissionContext.js:110-112 | builds an action tagged `SUBMISSION_RESET` |
| `Reducer.Step` | src/modules/forms/submission/submissionContext.js:16-61 | a step changes no field outside its action's write set; it keeps the state invariant (no record while pending, `isInvalid` never false); `lastUpdated` changes only by a reset to the initial state |
| `Reducer.Run` | src/modules/forms/submission/submissionContext.js:16-61 | a run of dispatches changes no field that none of its actions writes, keeps the state invariant, and leaves `lastUpdated` as it was or at its initial 0 |
| `Reducer.ClearErrorOnlyClearsError` | src/modules/forms/submission/submissionContext.js:18-22 | clearing the error sets it to `""`, leaves every other field unchanged, and is idempotent |
| `Reducer.RequestStartsFetch` | src/modules/forms/submission/submissionContext.js:23-31 | a request copies id, form id and URL from the action, empties the record, marks the store pending, and keeps `error`, `isInvalid` and `lastUpdated` |
| `Reducer.SaveKeepsUrlUnlessGiven` | src/modules/forms/submission/submissionContext.js:32-40 | a save takes the action's URL when it is truthy and otherwise keeps the previous one; it copies id and form id, empties the record and marks the store pending |
| `Reducer.SendSubmissionForgetsIds` | src/modules/forms/submission/submissionContext.js:32-40 | dispatching the field-less save built at line 95 leaves `formId` and `id` undefined and the URL as it was |
| `Reducer.SuccessIgnoresUrl` | src/modules/forms/submission/submissionContext.js:41-48 | a success takes the record and its `_id`, clears the error and ends the pending phase; it keeps the URL, so two successes that differ only in their URL give the same state |
| `Reducer.FailureMarksInvalid` | src/modules/forms/submission/submissionContext.js:49-55 | a failure ends the pending phase, sets `isInvalid` to true, stores the error, and changes nothing else |
| `Reducer.OnlyFailureAndResetTouchIsInvalid` | src/modules/forms/submission/submissionContext.js:49-57 | only a failure or a reset changes `isInvalid`; only a failure sets it; a reset removes it |
| `Reducer.ResetAndUnknown` | src/modules/forms/submission/submissionContext.js:56-59 | a reset yields the initial state from any state and is idempotent; an unrecognised action leaves the state unchanged |
| `Reducer.RunAfterReset` | src/modules/forms/submission/submissionContext.js:56-57 | after any history that contains a reset, the state depends only on the actions after that reset |
| `Reducer.ReachableConsistent` | src/modules/forms/submission/submissionContext.js:6-14 | every state reachable from the initial state has no record while pending, never has `isInvalid == false`, and has `lastUpdated == 0` |
| `Reducer.InvalidIsLastWriter` | src/modules/forms/submission/submissionContext.js:49-57 | after any history, `isInvalid` is what the latest failure (true) or reset (absent) left, or its starting value if neither happened |
| `Reducer.ErrorIsLastWriter` | src/modules/forms/submission/submissionContext.js:18-57 | after any history, `error` is what the latest clear, success, failure or reset wrote, or its starting value if none happened |
| `Reducer.ActiveIsLastWriter` | src/modules/forms/submission/submissionContext.js:23-57 | after any history, the store is pending exactly when the latest request or save is later than the latest success, failure or reset, or when it started pending and none of these came |
| `Reducer.InvalidSticky` | src/modules/forms/submission/submissionContext.js:49-57 | once `isInvalid` is true it stays true through any history without a reset |
| `Urls.CollectionUrl` | src/modules/forms/submission/submissionContext.js:136 | the create URL is `base` followed by `/form/`, the form id and `/submission`, with no trailing submission id |
| `Urls.SubmissionUrl` | src/modules/forms/submission/submissionContext.js:115 | the read URL is the form's collection URL followed by `/` and the submission id |
| `Urls.SaveUrl` | src/modules/forms/submission/submissionContext.js:136 | a save goes to the submission's own URL when the data has a truthy `_id`, and to the collection URL otherwise |
| `Urls.ParseSubmissionUrl` | src/modules/forms/submission/submissionContext.js:151 | any URL the parser accepts is the submission URL of the form id and id it returns, and that form id contains no `/` |
| `Urls.ParseSubmissionUrlRoundTrip` | src/modules/forms/submission/submissionContext.js:115 | parsing a submission URL recovers its form id and submission id, for every form id without a `/` |
| `Urls.SubmissionUrlInjective` | src/modules/forms/submission/submissionContext.js:151 | two (form, submission) pairs with slash-free form ids share a URL only if they are equal, so a delete addresses exactly one submission |
| `Urls.CollectionUrlIsNotASubmission` | src/modules/forms/submission/submissionContext.js:136 | for a form id without a `/`, the create URL is never read as the URL of a submission |
| `Operations.GetSubmission` | src/modules/forms/submission/submissionContext.js:114-129 | a load builds its client with the read URL and dispatches a request, then a success carrying the result and no URL when the call resolves or a failure carrying the error when it rejects; the callback is called exactly once, last, with `(null, result)` or `(error)` |
| `Operations.SaveSubmission` | src/modules/forms/submission/submissionContext.js:131-148 | a save builds its client with the create or update URL and dispatches the field-less save, then a success that carries the returned record and its URL when the call resolves, or a failure carrying the error when it rejects; the callback is called exactly once, last |
| `Operations.DeleteSubmission` | src/modules/forms/submission/submissionContext.js:150-162 | a delete dispatches no pending action, only a reset or only a failure; the callback is called exactly once, last, with `(null, true)` or `(error)` |
| `Operations.GetSubmissionFinalState` | src/modules/forms/submission/submissionContext.js:114-129 | between its dispatches a load leaves the store pending with no record; afterwards the store holds the read URL and form id and is not pending; on success it holds the record and its `_id` with no error; on failure it holds the requested id, the error and `isInvalid` |
| `Operations.SaveSubmissionFinalState` | src/modules/forms/submission/submissionContext.js:131-148 | after a save the form id is undefined and the URL is what it was before; on success the store holds the returned record and its `_id`; on failure the id is undefined and the error and `isInvalid` are set |
| `Operations.DeleteSubmissionFinalState` | src/modules/forms/submission/submissionContext.js:150-162 | a successful delete returns any state to the initial state; a failed one sets only `isActive`, `isInvalid` and `error` |
| `Operations.GetSubmissionScenario` | src/modules/forms/submission/submissionContext.js:114-129 | loading `s1` of form `f1` from the initial state stores the returned record, id `s1`, no error and the URL `<base>/form/f1/submission/s1`, and calls back with the record |
| `Operations.SaveSubmissionScenario` | src/modules/forms/submission/submissionContext.js:131-148 | creating a submission from the initial state uses the collection URL; the success action carries `.../submission/new1`; the store takes id `new1` but keeps the empty URL |

## Left out

- React plumbing is left out: the context, `SubmissionProvider`, `useReducer`/`useMemo` and the `useSubmission` hook (lines 4, 63-82). This includes the hook's error when it is used outside a provider. It is UI framework glue with no logic of its own.
- The form-service client is left out: its constructor, `loadSubmission`, `saveSubmission`, `deleteSubmission` and `getProjectUrl`. These are network I/O in an external library. The model replaces them with an `Outcome` parameter and a `base` string. `Effects.clientUrl` records the URL the client would be built with.
- Promise timing is left out, and so is interleaving between concurrent operations. Each operation's effects are one finite trace. Two operations running at once can interleave their dispatches in any order, and the model does not enumerate those orders.
- A callback or dispatch that throws inside the success handler is left out. In the code, that would send control into the `.catch` handler, which dispatches a failure and calls the callback a second time. The model assumes the callback returns normally.
- Undefined `id` or `formId` arguments to the three operations are left out. The model takes them as strings, so template-literal rendering of `undefined` in those URLs is not modelled. It is modelled only for the returned record's `_id` in the save success URL (`Options.Interpolate`).
- The save's `data` and the service's resolved result are assumed to be objects. If `data` is `undefined` or `null`, line 134 throws after the save action was dispatched at line 132, so the store stays pending and the callback is never called. If a save resolves with `null`, line 140 throws inside the success handler, and the `.catch` handler dispatches a failure and calls the callback with that error. If a load resolves with `null`, the reducer throws at line 44 while dispatching. The model's `Payload` is always an object, so none of these paths exist in it.
- Error values are opaque strings, and record fields other than `_id` are an opaque string map. The code never inspects either.

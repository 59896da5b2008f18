/** The six action kinds the reducer understands, their `type` tags and the action creators. */
module SubmissionActions {
  import opened Options
  import opened SubmissionState

  const ClearErrorType := "SUBMISSION_CLEAR_ERROR"
  const RequestType := "SUBMISSION_REQUEST"
  const SaveType := "SUBMISSION_SAVE"
  const SuccessType := "SUBMISSION_SUCCESS"
  const FailureType := "SUBMISSION_FAILURE"
  const ResetType := "SUBMISSION_RESET"

  const KnownTypes: set<string> := {ClearErrorType, RequestType, SaveType, SuccessType, FailureType, ResetType}

  /** A `type` tag the reducer has no case for. */
  type UnknownType = t: string | t !in KnownTypes witness ""

  /** An action object. Fields the object does not carry are `None`. */
  datatype Action =
    | ClearError
    | Request(id: Option<string>, formId: Option<string>, url: Option<string>)
    | Save(id: Option<string>, formId: Option<string>, url: Option<string>)
    | Success(submission: Payload, url: Option<string>)
    | Failure(error: string)
    | Reset
    | Unrecognised(tag: UnknownType)

  /** The action's `type` field. */
  function TypeOf(a: Action): (r: string)
    ensures r in KnownTypes <==> !a.Unrecognised?
  {
    match a
    case ClearError => ClearErrorType
    case Request(_, _, _) => RequestType
    case Save(_, _, _) => SaveType
    case Success(_, _) => SuccessType
    case Failure(_) => FailureType
    case Reset => ResetType
    case Unrecognised(t) => t
  }

  /** Distinct action kinds carry distinct `type` tags, so the reducer's switch can tell them apart. */
  lemma TypeOfDistinguishesKinds(a: Action, b: Action)
    requires TypeOf(a) == TypeOf(b)
    ensures a.ClearError? <==> b.ClearError?
    ensures a.Request? <==> b.Request?
    ensures a.Save? <==> b.Save?
    ensures a.Success? <==> b.Success?
    ensures a.Failure? <==> b.Failure?
    ensures a.Reset? <==> b.Reset?
  {
  }

  function ClearSubmissionError(): (a: Action)
    ensures TypeOf(a) == ClearErrorType
  {
    ClearError
  }

  function RequestSubmission(id: string, formId: string, url: string): (a: Action)
    ensures TypeOf(a) == RequestType
    ensures a.Request? && a.id == Some(id) && a.formId == Some(formId) && a.url == Some(url)
  {
    Request(Some(id), Some(formId), Some(url))
  }

  /** Builds a save action that carries only its `type`: `data` is not used. */
  function SendSubmission(data: Payload): (a: Action)
    ensures TypeOf(a) == SaveType
    ensures a.Save? && a.id.None? && a.formId.None? && a.url.None?
  {
    Save(None, None, None)
  }

  function ReceiveSubmission(submission: Payload, url: Option<string>): (a: Action)
    ensures TypeOf(a) == SuccessType
    ensures a.Success? && a.submission == submission && a.url == url
  {
    Success(submission, url)
  }

  function FailSubmission(error: string): (a: Action)
    ensures TypeOf(a) == FailureType
    ensures a.Failure? && a.error == error
  {
    Failure(error)
  }

  function ResetSubmission(): (a: Action)
    ensures TypeOf(a) == ResetType
  {
    Reset
  }
}

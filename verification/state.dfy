/** The submission store's state record and a vocabulary for talking about its fields. */
module SubmissionState {
  import opened Options

  /** A submission record as returned by the form service. Only its `_id` is
      inspected; the remaining keys are opaque. */
  datatype Payload = Payload(id: Option<string>, fields: map<string, string>)

  /** The empty object literal `{}`: it has no `_id`. */
  const EmptyPayload := Payload(None, map[])

  /** The reducer's state. `isInvalid` is `None` while the key is absent. */
  datatype State = State(
    formId: Option<string>,
    id: Option<string>,
    isActive: bool,
    lastUpdated: int,
    submission: Payload,
    url: Option<string>,
    error: string,
    isInvalid: Option<bool>
  )

  /** The state the provider mounts with; it has no `isInvalid` key. */
  const Initial := State(Some(""), Some(""), false, 0, EmptyPayload, Some(""), "", None)

  /** The names of the state's fields. */
  datatype Field = FormId | Id | IsActive | LastUpdated | Submission | Url | Error | IsInvalid

  const AllFields: set<Field> := {FormId, Id, IsActive, LastUpdated, Submission, Url, Error, IsInvalid}

  /** `s` and `t` hold the same value in field `f`. */
  predicate Unchanged(s: State, t: State, f: Field) {
    match f
    case FormId => s.formId == t.formId
    case Id => s.id == t.id
    case IsActive => s.isActive == t.isActive
    case LastUpdated => s.lastUpdated == t.lastUpdated
    case Submission => s.submission == t.submission
    case Url => s.url == t.url
    case Error => s.error == t.error
    case IsInvalid => s.isInvalid == t.isInvalid
  }

  /** Going from `s` to `t` changes at most the fields in `written`. */
  ghost predicate UnchangedExcept(s: State, t: State, written: set<Field>) {
    forall f :: f !in written ==> Unchanged(s, t, f)
  }

  /** Frames compose: the changes of two steps are within the union of their write sets. */
  lemma UnchangedExceptTrans(s: State, m: State, t: State, w1: set<Field>, w2: set<Field>)
    requires UnchangedExcept(s, m, w1)
    requires UnchangedExcept(m, t, w2)
    ensures UnchangedExcept(s, t, w1 + w2)
  {
  }

  /** The state invariants every reachable state keeps: nothing is stored while a
      request is pending, and `isInvalid`, once present, is `true`. */
  predicate Consistent(s: State) {
    && (s.isActive ==> s.submission == EmptyPayload)
    && s.isInvalid != Some(false)
  }
}

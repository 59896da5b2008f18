/** The submission reducer: one step per dispatched action, and its fold over a
    sequence of dispatches. */
module Reducer {
  import opened Options
  import opened SubmissionState
  import opened SubmissionActions

  /** The fields an action may write. A reset rewrites the whole record. */
  function Writes(a: Action): set<Field> {
    match a
    case ClearError => {Error}
    case Request(_, _, _) => {FormId, Id, Url, Submission, IsActive}
    case Save(_, _, _) => {FormId, Id, Url, Submission, IsActive}
    case Success(_, _) => {Id, Submission, IsActive, Error}
    case Failure(_) => {IsActive, IsInvalid, Error}
    case Reset => AllFields
    case Unrecognised(_) => {}
  }

  /** The reducer: the state after `a` is dispatched in state `s`. */
  function Step(s: State, a: Action): (r: State)
    ensures UnchangedExcept(s, r, Writes(a))
    ensures Consistent(s) ==> Consistent(r)
    ensures r.lastUpdated == s.lastUpdated || r == Initial
  {
    match a
    case ClearError => s.(error := "")
    case Request(id, formId, url) =>
      s.(formId := formId, id := id, url := url, submission := EmptyPayload, isActive := true)
    case Save(id, formId, url) =>
      s.(formId := formId, id := id, url := Or(url, s.url), submission := EmptyPayload, isActive := true)
    case Success(submission, _) =>
      s.(id := submission.id, submission := submission, isActive := false, error := "")
    case Failure(error) =>
      s.(isActive := false, isInvalid := Some(true), error := error)
    case Reset => Initial
    case Unrecognised(_) => s
  }

  /** Every field some action of `actions` may write. */
  function WrittenBy(actions: seq<Action>): (w: set<Field>)
    ensures forall i :: 0 <= i < |actions| ==> Writes(actions[i]) <= w
  {
    if actions == [] then {} else Writes(actions[0]) + WrittenBy(actions[1..])
  }

  /** The state after dispatching `actions` in order, starting from `s`. */
  function Run(s: State, actions: seq<Action>): (r: State)
    decreases |actions|
    ensures UnchangedExcept(s, r, WrittenBy(actions))
    ensures Consistent(s) ==> Consistent(r)
    ensures r.lastUpdated == s.lastUpdated || r.lastUpdated == Initial.lastUpdated
  {
    if actions == [] then s
    else
      var m := Step(s, actions[0]);
      var r := Run(m, actions[1..]);
      UnchangedExceptTrans(s, m, r, Writes(actions[0]), WrittenBy(actions[1..]));
      r
  }

  // ---------------------------------------------------------------------------
  // One action at a time

  /** Clearing the error empties it and touches nothing else; doing it twice is doing it once. */
  lemma ClearErrorOnlyClearsError(s: State)
    ensures Step(s, ClearError).error == ""
    ensures UnchangedExcept(s, Step(s, ClearError), {Error})
    ensures Step(Step(s, ClearError), ClearError) == Step(s, ClearError)
  {
  }

  /** A request copies its identifiers and URL, empties the stored submission and
      marks the store pending; the error, `isInvalid` and `lastUpdated` survive. */
  lemma RequestStartsFetch(s: State, id: Option<string>, formId: Option<string>, url: Option<string>)
    ensures var r := Step(s, Request(id, formId, url));
      && r.formId == formId && r.id == id && r.url == url
      && r.submission == EmptyPayload && r.isActive
      && r.error == s.error && r.isInvalid == s.isInvalid && r.lastUpdated == s.lastUpdated
  {
  }

  /** A save keeps the previous URL unless it carries a truthy one. */
  lemma SaveKeepsUrlUnlessGiven(s: State, id: Option<string>, formId: Option<string>, url: Option<string>)
    ensures var r := Step(s, Save(id, formId, url));
      && r.formId == formId && r.id == id
      && (Truthy(url) ==> r.url == url)
      && (!Truthy(url) ==> r.url == s.url)
      && r.submission == EmptyPayload && r.isActive
      && r.error == s.error && r.isInvalid == s.isInvalid
  {
  }

  /** The save action built by the save operation erases `formId` and `id` and keeps the URL. */
  lemma SendSubmissionForgetsIds(s: State, data: Payload)
    ensures var r := Step(s, SendSubmission(data));
      && r.formId.None? && r.id.None? && r.url == s.url
      && r.submission == EmptyPayload && r.isActive
  {
  }

  /** A success stores the record and takes its `_id`, clears the error, ends the
      pending phase, and never looks at the URL the action carries. */
  lemma SuccessIgnoresUrl(s: State, p: Payload, u1: Option<string>, u2: Option<string>)
    ensures var r := Step(s, Success(p, u1));
      && r.id == p.id && r.submission == p && !r.isActive && r.error == ""
      && r.url == s.url && r.formId == s.formId && r.isInvalid == s.isInvalid
    ensures Step(s, Success(p, u1)) == Step(s, Success(p, u2))
  {
  }

  /** A failure ends the pending phase, records the error and sets `isInvalid`, and nothing else. */
  lemma FailureMarksInvalid(s: State, e: string)
    ensures var r := Step(s, Failure(e));
      && !r.isActive && r.isInvalid == Some(true) && r.error == e
      && UnchangedExcept(s, r, {IsActive, IsInvalid, Error})
  {
  }

  /** Only a failure sets `isInvalid` and only a reset removes it. */
  lemma OnlyFailureAndResetTouchIsInvalid(s: State, a: Action)
    ensures Step(s, a).isInvalid != s.isInvalid ==> a.Failure? || a.Reset?
    ensures Step(s, a).isInvalid == Some(true) && s.isInvalid != Some(true) ==> a.Failure?
    ensures a.Reset? ==> Step(s, a).isInvalid.None?
  {
  }

  /** A reset yields the initial state from any state, so it is idempotent; an
      unrecognised action leaves the state as it is. */
  lemma ResetAndUnknown(s: State, t: UnknownType)
    ensures Step(s, Reset) == Initial
    ensures Step(Step(s, Reset), Reset) == Step(s, Reset)
    ensures Step(s, Unrecognised(t)) == s
  {
  }

  // ---------------------------------------------------------------------------
  // Sequences of actions

  lemma {:induction false} RunAppend(s: State, xs: seq<Action>, ys: seq<Action>)
    ensures Run(s, xs + ys) == Run(Run(s, xs), ys)
    decreases |xs|
  {
    if xs == [] {
      assert xs + ys == ys;
    } else {
      assert (xs + ys)[0] == xs[0];
      assert (xs + ys)[1..] == xs[1..] + ys;
      RunAppend(Step(s, xs[0]), xs[1..], ys);
    }
  }

  lemma RunSnoc(s: State, xs: seq<Action>, a: Action)
    ensures Run(s, xs + [a]) == Step(Run(s, xs), a)
  {
    RunAppend(s, xs, [a]);
    assert [a][1..] == [];
  }

  /** Whatever happened before, a reset forgets it: the outcome depends only on the
      actions after the last reset. */
  lemma RunAfterReset(s: State, actions: seq<Action>, k: nat)
    requires k < |actions| && actions[k].Reset?
    ensures Run(s, actions) == Run(Initial, actions[k + 1..])
  {
    assert actions == actions[..k] + [actions[k]] + actions[k + 1..];
    RunAppend(s, actions[..k] + [actions[k]], actions[k + 1..]);
    RunSnoc(s, actions[..k], actions[k]);
  }

  /** Every state reached from the initial state keeps the store's invariants and
      a `lastUpdated` of 0. */
  lemma ReachableConsistent(actions: seq<Action>)
    ensures Consistent(Run(Initial, actions))
    ensures Run(Initial, actions).lastUpdated == 0
  {
  }

  /** Last writer wins: the value of a field after `actions` is the value the latest
      action with an `effect` on it wrote, or `v0` when none did. */
  function LastSet<V>(v0: V, actions: seq<Action>, effect: Action -> Option<V>): (v: V)
    decreases |actions|
  {
    if actions == [] then v0
    else match effect(actions[|actions| - 1])
      case Some(v) => v
      case None => LastSet(v0, actions[..|actions| - 1], effect)
  }

  /** How each action affects `isInvalid`. */
  function InvalidEffect(a: Action): Option<Option<bool>> {
    match a
    case Failure(_) => Some(Some(true))
    case Reset => Some(Initial.isInvalid)
    case _ => None
  }

  /** How each action affects `error`. */
  function ErrorEffect(a: Action): Option<string> {
    match a
    case ClearError => Some("")
    case Success(_, _) => Some("")
    case Failure(e) => Some(e)
    case Reset => Some(Initial.error)
    case _ => None
  }

  /** How each action affects `isActive`: requests and saves open the pending
      phase; successes, failures and resets close it. */
  function ActiveEffect(a: Action): Option<bool> {
    match a
    case Request(_, _, _) => Some(true)
    case Save(_, _, _) => Some(true)
    case Success(_, _) => Some(false)
    case Failure(_) => Some(false)
    case Reset => Some(false)
    case _ => None
  }

  /** `isInvalid` is `true` exactly when a failure happened since the last reset
      (or it already was and no reset came), and absent after a reset otherwise. */
  lemma {:induction false} InvalidIsLastWriter(s: State, actions: seq<Action>)
    ensures Run(s, actions).isInvalid == LastSet(s.isInvalid, actions, InvalidEffect)
    decreases |actions|
  {
    if actions != [] {
      var xs, a := actions[..|actions| - 1], actions[|actions| - 1];
      assert actions == xs + [a];
      RunSnoc(s, xs, a);
      InvalidIsLastWriter(s, xs);
    }
  }

  /** `error` holds what the latest failure stored, unless a clear, success or reset came after it. */
  lemma {:induction false} ErrorIsLastWriter(s: State, actions: seq<Action>)
    ensures Run(s, actions).error == LastSet(s.error, actions, ErrorEffect)
    decreases |actions|
  {
    if actions != [] {
      var xs, a := actions[..|actions| - 1], actions[|actions| - 1];
      assert actions == xs + [a];
      RunSnoc(s, xs, a);
      ErrorIsLastWriter(s, xs);
    }
  }

  /** The store is pending exactly when the latest request or save has not yet been
      followed by a success, failure or reset. */
  lemma {:induction false} ActiveIsLastWriter(s: State, actions: seq<Action>)
    ensures Run(s, actions).isActive == LastSet(s.isActive, actions, ActiveEffect)
    decreases |actions|
  {
    if actions != [] {
      var xs, a := actions[..|actions| - 1], actions[|actions| - 1];
      assert actions == xs + [a];
      RunSnoc(s, xs, a);
      ActiveIsLastWriter(s, xs);
    }
  }

  /** Once set, `isInvalid` stays set until a reset. */
  lemma InvalidSticky(s: State, actions: seq<Action>)
    requires s.isInvalid == Some(true)
    requires forall i :: 0 <= i < |actions| ==> !actions[i].Reset?
    ensures Run(s, actions).isInvalid == Some(true)
  {
    InvalidIsLastWriter(s, actions);
    LastSetSticky(s.isInvalid, actions);
  }

  lemma {:induction false} LastSetSticky(v0: Option<bool>, actions: seq<Action>)
    requires v0 == Some(true)
    requires forall i :: 0 <= i < |actions| ==> !actions[i].Reset?
    ensures LastSet(v0, actions, InvalidEffect) == Some(true)
    decreases |actions|
  {
    if actions != [] {
      LastSetSticky(v0, actions[..|actions| - 1]);
    }
  }
}

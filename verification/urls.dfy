/** The resource URLs the operations hand to the form-service client. */
module Urls {
  import opened Options

  const FormSegment := "/form/"
  const SubmissionSegment := "/submission"
  /** What separates the form id from a submission id in a submission URL. */
  const ItemSegment := SubmissionSegment + "/"

  /** The create URL: the collection of a form's submissions. */
  function CollectionUrl(base: string, formId: string): (r: string)
    ensures |r| == |base| + |FormSegment| + |formId| + |SubmissionSegment|
    ensures r[..|base|] == base
    ensures r[|base|..] == "/form/" + formId + "/submission"
  {
    base + FormSegment + formId + SubmissionSegment
  }

  /** The read, update and delete URL of one submission. */
  function SubmissionUrl(base: string, formId: string, id: string): (r: string)
    ensures r == CollectionUrl(base, formId) + "/" + id
  {
    base + FormSegment + formId + ItemSegment + id
  }

  /** The URL a save goes to: the submission's own URL when the data carries a
      truthy `_id` (an update), the collection otherwise (a create). */
  function SaveUrl(base: string, formId: string, dataId: Option<string>): (r: string)
    ensures Truthy(dataId) ==> r == SubmissionUrl(base, formId, dataId.value)
    ensures !Truthy(dataId) ==> r == CollectionUrl(base, formId)
  {
    CollectionUrl(base, formId) + if Truthy(dataId) then "/" + dataId.value else ""
  }

  /** The position of the first `/` in `s`, if any. */
  function FirstSlash(s: string): (r: Option<nat>)
    ensures r.Some? ==>
              && r.value < |s| && s[r.value] == '/'
              && forall j :: 0 <= j < r.value ==> s[j] != '/'
    ensures r.None? <==> '/' !in s
  {
    if s == [] then None
    else if s[0] == '/' then Some(0)
    else match FirstSlash(s[1..])
      case None => None
      case Some(k) => Some(k + 1)
  }

  /** Reads `formId` and `id` back out of a submission URL under `base`. */
  function ParseSubmissionUrl(base: string, url: string): (r: Option<(string, string)>)
    ensures r.Some? ==> '/' !in r.value.0 && url == SubmissionUrl(base, r.value.0, r.value.1)
  {
    var n := |base| + |FormSegment|;
    if |url| < n || url[..n] != base + FormSegment then None
    else
      match FirstSlash(url[n..])
      case None => None
      case Some(k) =>
        var tail := url[n..][k..];
        var m := |ItemSegment|;
        if |tail| < m || tail[..m] != ItemSegment then None
        else
          SplitSubmissionUrl(base, url, n, k);
          Some((url[n..][..k], tail[m..]))
  }

  /** A URL made of `base`, `/form/`, a slash-free segment and `/submission/` is
      the submission URL of that segment and the remainder. */
  lemma SplitSubmissionUrl(base: string, url: string, n: nat, k: nat)
    requires n == |base| + |FormSegment| <= |url|
    requires url[..n] == base + FormSegment
    requires k + |ItemSegment| <= |url[n..]|
    requires forall j :: 0 <= j < k ==> url[n..][j] != '/'
    requires url[n..][k..][..|ItemSegment|] == ItemSegment
    ensures '/' !in url[n..][..k]
    ensures url == SubmissionUrl(base, url[n..][..k], url[n..][k..][|ItemSegment|..])
  {
  }

  /** Parsing undoes building, for every form id without a `/`. */
  lemma ParseSubmissionUrlRoundTrip(base: string, formId: string, id: string)
    requires '/' !in formId
    ensures ParseSubmissionUrl(base, SubmissionUrl(base, formId, id)) == Some((formId, id))
  {
    var url := SubmissionUrl(base, formId, id);
    var n := |base| + |FormSegment|;
    assert url == (base + FormSegment) + (formId + ItemSegment + id);
    assert url[..n] == base + FormSegment;
    var rest := url[n..];
    assert rest == formId + (ItemSegment + id);
    FirstSlashAfter(formId, ItemSegment + id);
    assert rest[..|formId|] == formId;
    var tail := rest[|formId|..];
    assert tail == ItemSegment + id;
    assert tail[..|ItemSegment|] == ItemSegment;
    assert tail[|ItemSegment|..] == id;
  }

  /** The first `/` of a slash-free segment followed by text that starts with `/`
      is the one right after the segment. */
  lemma FirstSlashAfter(x: string, y: string)
    requires '/' !in x
    requires |y| > 0 && y[0] == '/'
    ensures FirstSlash(x + y) == Some(|x|)
  {
    assert (x + y)[|x|] == '/';
    assert forall j :: 0 <= j < |x| ==> (x + y)[j] == x[j];
  }

  /** Distinct (form, submission) pairs get distinct URLs. */
  lemma SubmissionUrlInjective(base: string, f1: string, i1: string, f2: string, i2: string)
    requires '/' !in f1 && '/' !in f2
    requires SubmissionUrl(base, f1, i1) == SubmissionUrl(base, f2, i2)
    ensures f1 == f2 && i1 == i2
  {
    ParseSubmissionUrlRoundTrip(base, f1, i1);
    ParseSubmissionUrlRoundTrip(base, f2, i2);
  }

  /** A create URL never reads as the URL of a submission. */
  lemma CollectionUrlIsNotASubmission(base: string, formId: string)
    requires '/' !in formId
    ensures ParseSubmissionUrl(base, CollectionUrl(base, formId)) == None
  {
  }
}

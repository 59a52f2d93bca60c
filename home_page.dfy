/**
 * The landing page: the domain and topic fields, and the submission that
 * posts the non-blank topics and, when results come back, saves the
 * session record the dashboard reads.
 */
module HomePage {
  import opened Wrappers
  import opened TopicForms
  import Text
  import DataTransformer

  /** The record saved under the `brandData` key. */
  datatype SessionRecord = SessionRecord(domain: string, topics: seq<string>, results: seq<DataTransformer.RawTopic>)

  /** The fixed text shown under the form when the request throws. */
  const SubmitFailed := "Failed to optimize your brand performance. Please try again."

  /**
   * What one submission leaves behind: the request posted (if any), whether
   * the form still counts as submitting, the error shown and the record
   * saved (`None`: nothing was saved).
   */
  datatype SubmitEffect = SubmitEffect(
    request: Option<KeywordsRequest>,
    submitting: bool,
    error: Option<string>,
    record: Option<SessionRecord>)

  /**
   * The request is posted exactly when the domain is non-empty and some
   * topic is not all whitespace; it carries the domain, an empty
   * description and the non-blank topics in their order.
   */
  function RequestFor(domain: string, topics: seq<string>): (r: Option<KeywordsRequest>)
    ensures r.Some? <==> domain != "" && exists t :: t in topics && !Text.IsBlank(t)
    ensures r.Some? ==> r.value == KeywordsRequest(domain, "", NonBlankTopics(topics))
  {
    NonBlankTopicsSpec(topics);
    var filtered := NonBlankTopics(topics);
    if domain != "" && |filtered| > 0 then
      Some(KeywordsRequest(domain, "", filtered))
    else
      assert (exists t :: t in topics && !Text.IsBlank(t)) ==> filtered != [];
      None
  }

  /**
   * `handleSubmit` as written: the submitting flag is raised before the
   * guard but lowered only inside it, so a rejected submission leaves it
   * raised.
   */
  function SubmitAsWritten(domain: string, topics: seq<string>, outcome: MutationOutcome): (e: SubmitEffect)
    ensures e.request == RequestFor(domain, topics)
    ensures e.submitting <==> e.request.None?
    ensures e.record.Some? <==>
      e.request.Some? && outcome.Resolved? && outcome.data.Some? && outcome.data.value.results.Some?
    ensures e.record.Some? ==>
      e.record.value == SessionRecord(domain, NonBlankTopics(topics), outcome.data.value.results.value)
      && e.error.None?
    ensures e.request.Some? && outcome.Threw? ==> e.error == Some(SubmitFailed)
    ensures e.request.Some? && outcome.Resolved? && e.record.None? ==>
      e.error == if outcome.error.Some? then Some(outcome.error.value) else None
    ensures e.request.None? ==> e.error.None? && e.record.None?
  {
    var request := RequestFor(domain, topics);
    if request.None? then SubmitEffect(None, true, None, None)
    else
      match outcome
      case Threw => SubmitEffect(request, false, Some(SubmitFailed), None)
      case Resolved(data, error) =>
        if data.Some? && data.value.results.Some? then
          SubmitEffect(request, false, None, Some(SessionRecord(domain, request.value.topics, data.value.results.value)))
        else
          SubmitEffect(request, false, if error.Some? then Some(error.value) else None, None)
  }

  /** The intended submission: the same effect, but the form is never left submitting. */
  function Submitted(domain: string, topics: seq<string>, outcome: MutationOutcome): (e: SubmitEffect)
    ensures !e.submitting
    ensures e.(submitting := true) == SubmitAsWritten(domain, topics, outcome).(submitting := true)
  {
    SubmitAsWritten(domain, topics, outcome).(submitting := false)
  }

  /** Whenever the guard rejects a submission, the code as written keeps the button disabled. */
  lemma RejectedSubmitStaysBusy(domain: string, topics: seq<string>, outcome: MutationOutcome)
    requires domain == "" || forall t :: t in topics ==> Text.IsBlank(t)
    ensures SubmitAsWritten(domain, topics, outcome).submitting
    ensures SubmitAsWritten(domain, topics, outcome).request.None?
  {
  }

  /**
   * A domain with a single whitespace-only topic passes the browser's
   * `required` checks (neither field is empty) and is then rejected by the
   * guard, leaving the submit button disabled.
   */
  lemma BlankTopicLeavesButtonDisabled(outcome: MutationOutcome)
    ensures RequestFor("example.com", ["   "]).None?
    ensures SubmitAsWritten("example.com", ["   "], outcome).submitting
    ensures !Submitted("example.com", ["   "], outcome).submitting
  {
    BlankTopicDropped();
  }

  class Home {
    var domain: string
    var topics: seq<string>
    var results: Option<seq<DataTransformer.RawTopic>>
    var isSubmitting: bool
    var error: Option<string>
    /** The session record in browser storage, if one was saved. */
    var saved: Option<SessionRecord>

    /** There is always at least one topic field. */
    ghost predicate Valid()
      reads this
    {
      |topics| >= 1
    }

    constructor()
      ensures Valid()
      ensures domain == "" && topics == InitialTopics && results.None?
      ensures !isSubmitting && error.None? && saved.None?
    {
      domain := "";
      topics := InitialTopics;
      results := None;
      isSubmitting := false;
      error := None;
      saved := None;
    }

    /** `handleTopicChange`: only field `index` changes. */
    method HandleTopicChange(index: nat, value: string)
      requires Valid() && index < |topics|
      modifies this`topics
      ensures Valid()
      ensures topics == old(topics)[index := value]
    {
      topics := UpdatedTopics(topics, index, value);
    }

    /** `addTopicField`: one empty field at the end. */
    method AddTopicField()
      requires Valid()
      modifies this`topics
      ensures Valid()
      ensures topics == old(topics) + [""]
    {
      topics := topics + [""];
    }

    /** `removeTopicField`: the last remaining field is never removed. */
    method RemoveTopicField(index: int)
      requires Valid()
      modifies this`topics
      ensures Valid()
      ensures topics == RemovedField(old(topics), index)
    {
      if |topics| > 1 {
        topics := SplicedCopy(topics, index);
      }
    }

    /**
     * `handleSubmit` with the submitting flag lowered on every path; the
     * posted request is returned, the response is `outcome`.
     */
    method HandleSubmit(outcome: MutationOutcome) returns (request: Option<KeywordsRequest>)
      modifies this`isSubmitting, this`error, this`results, this`saved
      ensures var e := Submitted(old(domain), old(topics), outcome);
        && request == e.request
        && isSubmitting == e.submitting
        && error == e.error
        && saved == (if e.record.Some? then e.record else old(saved))
      ensures results.None?
    {
      // the handler reads the values of the render it was created in
      var domain, topics := this.domain, this.topics;
      isSubmitting := true;
      error := None;
      results := None;
      var filteredTopics := NonBlankTopics(topics);
      if domain != "" && |filteredTopics| > 0 {
        request := Some(KeywordsRequest(domain, "", filteredTopics));
        SubmitOutcome(outcome, domain, filteredTopics);
      } else {
        request := None;
      }
      isSubmitting := false;
    }

    /** The part of `handleSubmit` that runs once the request was sent. */
    method SubmitOutcome(outcome: MutationOutcome, domain: string, filteredTopics: seq<string>)
      modifies this`error, this`saved
      ensures error == match outcome
        case Threw => Some(SubmitFailed)
        case Resolved(data, responseError) =>
          if data.Some? && data.value.results.Some? then old(error)
          else if responseError.Some? then Some(responseError.value)
          else old(error)
      ensures saved == match outcome
        case Threw => old(saved)
        case Resolved(data, _) =>
          if data.Some? && data.value.results.Some? then Some(SessionRecord(domain, filteredTopics, data.value.results.value))
          else old(saved)
    {
      match outcome {
        case Threw =>
          error := Some(SubmitFailed);
        case Resolved(data, responseError) =>
          if data.Some? && data.value.results.Some? {
            saved := Some(SessionRecord(domain, filteredTopics, data.value.results.value));
          } else if responseError.Some? {
            error := Some(responseError.value);
          }
      }
    }
  }
}


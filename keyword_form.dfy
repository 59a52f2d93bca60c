/** The older keyword form: domain, description and topic fields, and its submission. */
module KeywordForm {
  import opened Wrappers
  import opened TopicForms
  import Text
  import DataTransformer

  /**
   * The request is posted exactly when domain and description are non-empty
   * and some topic is not all whitespace; it carries both and the
   * non-blank topics in their order.
   */
  function RequestFor(domain: string, description: string, topics: seq<string>): (r: Option<KeywordsRequest>)
    ensures r.Some? <==> domain != "" && description != "" && exists t :: t in topics && !Text.IsBlank(t)
    ensures r.Some? ==> r.value == KeywordsRequest(domain, description, NonBlankTopics(topics))
  {
    NonBlankTopicsSpec(topics);
    var filtered := NonBlankTopics(topics);
    if domain != "" && description != "" && |filtered| > 0 then
      Some(KeywordsRequest(domain, description, filtered))
    else
      assert (exists t :: t in topics && !Text.IsBlank(t)) ==> filtered != [];
      None
  }

  class Form {
    var domain: string
    var description: string
    var topics: seq<string>
    var results: Option<DataTransformer.RawResponse>

    /** There is always at least one topic field. */
    ghost predicate Valid()
      reads this
    {
      |topics| >= 1
    }

    constructor()
      ensures Valid()
      ensures domain == "" && description == "" && topics == InitialTopics && results.None?
    {
      domain := "";
      description := "";
      topics := InitialTopics;
      results := None;
    }

    /** `addTopic`: one empty field at the end. */
    method AddTopic()
      requires Valid()
      modifies this`topics
      ensures Valid()
      ensures topics == old(topics) + [""]
    {
      topics := topics + [""];
    }

    /** `removeTopic`: the last remaining field is never removed. */
    method RemoveTopic(index: int)
      requires Valid()
      modifies this`topics
      ensures Valid()
      ensures topics == RemovedField(old(topics), index)
    {
      if |topics| > 1 {
        topics := SplicedCopy(topics, index);
      }
    }

    /** `updateTopic`: only field `index` changes. */
    method UpdateTopic(index: nat, value: string)
      requires Valid() && index < |topics|
      modifies this`topics
      ensures Valid()
      ensures topics == old(topics)[index := value]
    {
      topics := UpdatedTopics(topics, index, value);
    }

    /**
     * `handleSubmit`: posts the request when the guard passes; a resolved
     * response replaces the results with its data (or none), a thrown one
     * leaves them as they were.
     */
    method HandleSubmit(outcome: MutationOutcome) returns (request: Option<KeywordsRequest>)
      modifies this`results
      ensures request == RequestFor(domain, description, topics)
      ensures results == if request.Some? && outcome.Resolved? then outcome.data else old(results)
    {
      var filteredTopics := NonBlankTopics(topics);
      if domain != "" && description != "" && |filteredTopics| > 0 {
        request := Some(KeywordsRequest(domain, description, filteredTopics));
        if outcome.Resolved? {
          results := outcome.data;
        }
      } else {
        request := None;
      }
    }
  }
}

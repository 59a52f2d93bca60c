/**
 * The topic-list editing both entry forms share (the landing page and the
 * older keyword form): the list of topic fields, the blank-topic filter,
 * the request body they post and the outcome of posting it.
 */
module TopicForms {
  import opened Wrappers
  import opened Seqs
  import Text
  import DataTransformer

  /** The body posted to the keywords endpoint. */
  datatype KeywordsRequest = KeywordsRequest(domain: string, description: string, topics: seq<string>)

  /**
   * How the mutation settled: it threw, or it resolved with the API client's
   * `{ data?, error? }` (of the error only its message is used).
   */
  datatype MutationOutcome =
    | Threw
    | Resolved(data: Option<DataTransformer.RawResponse>, error: Option<string>)

  /** Both forms start with one empty topic field. */
  const InitialTopics: seq<string> := [""]

  /** A copy of the list with `newTopics[index] = value` applied. */
  method UpdatedTopics(topics: seq<string>, index: nat, value: string) returns (r: seq<string>)
    requires index < |topics|
    ensures |r| == |topics| && r[index] == value
    ensures forall i :: 0 <= i < |topics| && i != index ==> r[i] == topics[i]
  {
    var copy := new string[|topics|](i requires 0 <= i < |topics| => topics[i]);
    copy[index] := value;
    r := copy[..];
  }

  /** `splice(index, 1)`: the element at the normalised position goes, when there is one. */
  function Spliced(topics: seq<string>, index: int): (r: seq<string>)
    ensures 0 <= index < |topics| ==> |r| == |topics| - 1 && r == topics[..index] + topics[index + 1..]
    ensures index >= |topics| ==> r == topics
    ensures -|topics| <= index < 0 ==> r == topics[..|topics| + index] + topics[|topics| + index + 1..]
    ensures index < -|topics| && |topics| > 0 ==> r == topics[1..]
  {
    var start := JsIndex(|topics|, index);
    if start < |topics| then topics[..start] + topics[start + 1..] else topics
  }

  /** A copy of the list with `splice(index, 1)` applied by shifting the tail left. */
  method SplicedCopy(topics: seq<string>, index: int) returns (r: seq<string>)
    ensures r == Spliced(topics, index)
  {
    var copy := new string[|topics|](i requires 0 <= i < |topics| => topics[i]);
    var start := JsIndex(copy.Length, index);
    if start == copy.Length {
      return copy[..];
    }
    var j := start;
    while j < copy.Length - 1
      invariant start <= j <= copy.Length - 1
      invariant forall k :: 0 <= k < start ==> copy[k] == topics[k]
      invariant forall k :: start <= k < j ==> copy[k] == topics[k + 1]
      invariant forall k :: j <= k < copy.Length ==> copy[k] == topics[k]
    {
      copy[j] := copy[j + 1];
      j := j + 1;
    }
    r := copy[..copy.Length - 1];
    assert r == topics[..start] + topics[start + 1..];
  }

  /** `removeTopicField` / `removeTopic`: with a single field nothing is removed. */
  function RemovedField(topics: seq<string>, index: int): (r: seq<string>)
    ensures |topics| <= 1 ==> r == topics
    ensures |topics| > 1 ==> r == Spliced(topics, index)
    ensures |topics| >= 1 ==> |r| >= 1
  {
    if |topics| > 1 then Spliced(topics, index) else topics
  }

  /** The filter's test, `topic.trim() !== ""`. */
  predicate KeptTopic(topic: string)
  {
    Text.Trim(topic) != ""
  }

  /** `topics.filter(topic => topic.trim() !== "")`. */
  function NonBlankTopics(topics: seq<string>): (r: seq<string>)
    ensures forall t :: multiset(r)[t] == if Text.IsBlank(t) then 0 else multiset(topics)[t]
  {
    FilterMultiplicities(topics, KeptTopic);
    KeptIffNotBlank();
    Filter(topics, KeptTopic)
  }

  /** `trim() !== ""` holds exactly for the topics that are not all whitespace. */
  lemma KeptIffNotBlank()
    ensures forall t :: KeptTopic(t) <==> !Text.IsBlank(t)
  {
    forall t ensures KeptTopic(t) <==> !Text.IsBlank(t) {
      Text.TrimEmptyIffBlank(t);
    }
  }

  /**
   * The filter keeps exactly the topics that are not all whitespace, in
   * their order; applying it again changes nothing, and a list without
   * blank topics passes unchanged.
   */
  lemma NonBlankTopicsSpec(topics: seq<string>)
    ensures IsSubsequence(NonBlankTopics(topics), topics)
    ensures forall t :: t in NonBlankTopics(topics) <==> t in topics && !Text.IsBlank(t)
    ensures NonBlankTopics(NonBlankTopics(topics)) == NonBlankTopics(topics)
    ensures (forall t :: t in topics ==> !Text.IsBlank(t)) ==> NonBlankTopics(topics) == topics
  {
    var p := KeptTopic;
    FilterIsSubsequence(topics, p);
    FilterIdempotent(topics, p);
    forall t ensures t in NonBlankTopics(topics) <==> t in topics && !Text.IsBlank(t) {
      FilterMembership(topics, p, t);
      Text.TrimEmptyIffBlank(t);
    }
    if forall t :: t in topics ==> !Text.IsBlank(t) {
      forall t | t in topics ensures p(t) {
        Text.TrimEmptyIffBlank(t);
      }
      FilterKeepsAll(topics, p);
    }
  }

  /** A whitespace-only topic is dropped. */
  lemma BlankTopicDropped()
    ensures NonBlankTopics(["   "]) == []
  {
    Text.TrimEmptyIffBlank("   ");
  }
}

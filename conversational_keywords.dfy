/**
 * The backend's conversational-keywords handler with its language-model and
 * web-search calls taken as parameters:
 *  - `llm` gives, for a topic label, the model's three intent lists or an error;
 *  - `search` gives, for a keyword, the statistics extracted from a web
 *    search answer or an error;
 *  - `now` is the formatted current time that labels a topic's new history
 *    point; the handler reads the clock once per topic, so it takes `clock`,
 *    the reading for each topic index.
 * The per-keyword searches run concurrently in the handler; here they run in
 * keyword order, and the aggregation is shown not to depend on that order.
 */
module ConversationalKeywords {
  import opened Wrappers
  import opened Stats

  datatype KeywordWithIntent = KeywordWithIntent(keyword: string, intent: string)

  /** A topic; `searchEngines` is `None` for a nil Go map. */
  datatype TopicResult = TopicResult(
    topic: string,
    keywords: seq<KeywordWithIntent>,
    searchEngines: Option<map<string, EngineStats>>)

  datatype KeywordsRequest = KeywordsRequest(domain: string, topics: seq<TopicResult>)

  /** The model's answer to the keyword-generation prompt. */
  datatype GeneratedKeywords = GeneratedKeywords(
    informational: seq<string>,
    commercial: seq<string>,
    transactional: seq<string>)

  /** The statistics the model extracts from one web search answer. */
  datatype ParsedStats = ParsedStats(hasBrandAppeared: bool, distinctBrands: int, avgVisibilityPosition: real)

  datatype ReplyBody = ErrorBody(error: string) | ResultsBody(results: seq<TopicResult>)

  datatype Reply = Reply(status: int, body: ReplyBody)

  const StatusOK := 200
  const StatusBadRequest := 400
  const StatusInternalServerError := 500

  const Informational := "informational"
  const Commercial := "commercial"
  const Transactional := "transactional"

  /** Each keyword of `keywords` paired with `intent`, in order. */
  function Tagged(keywords: seq<string>, intent: string): (r: seq<KeywordWithIntent>)
    ensures |r| == |keywords|
    ensures forall i :: 0 <= i < |r| ==> r[i].keyword == keywords[i] && r[i].intent == intent
  {
    seq(|keywords|, i requires 0 <= i < |keywords| => KeywordWithIntent(keywords[i], intent))
  }

  /** The informational, then commercial, then transactional keywords, each tagged. */
  function MergedKeywords(g: GeneratedKeywords): (r: seq<KeywordWithIntent>)
    ensures forall k :: 0 <= k < |r| ==> r[k].intent in [Informational, Commercial, Transactional]
  {
    Tagged(g.informational, Informational) + Tagged(g.commercial, Commercial)
      + Tagged(g.transactional, Transactional)
  }

  /** One `for ... append` loop of `generateKeywordsForTopic`. */
  method AppendTagged(acc: seq<KeywordWithIntent>, keywords: seq<string>, intent: string)
    returns (r: seq<KeywordWithIntent>)
    ensures r == acc + Tagged(keywords, intent)
  {
    r := acc;
    for i := 0 to |keywords|
      invariant r == acc + Tagged(keywords[..i], intent)
    {
      r := r + [KeywordWithIntent(keywords[i], intent)];
      assert Tagged(keywords[..i + 1], intent) == Tagged(keywords[..i], intent) + [KeywordWithIntent(keywords[i], intent)];
    }
    assert keywords[..|keywords|] == keywords;
  }

  /**
   * The merged list is as long as the three lists together, and selecting
   * one intent gives back that intent's list in its order.
   */
  lemma MergedGroups(g: GeneratedKeywords)
    ensures var m := MergedKeywords(g);
      && |m| == |g.informational| + |g.commercial| + |g.transactional|
      && Keywords(WithIntent(m, Informational)) == g.informational
      && Keywords(WithIntent(m, Commercial)) == g.commercial
      && Keywords(WithIntent(m, Transactional)) == g.transactional
  {
    MergedWithIntent(g, Informational);
    MergedWithIntent(g, Commercial);
    MergedWithIntent(g, Transactional);
    KeywordsOfTagged(g.informational, Informational);
    KeywordsOfTagged(g.commercial, Commercial);
    KeywordsOfTagged(g.transactional, Transactional);
  }

  /** Selecting one intent from the merged list keeps only the group with that tag. */
  lemma MergedWithIntent(g: GeneratedKeywords, intent: string)
    ensures WithIntent(MergedKeywords(g), intent) ==
      (if intent == Informational then Tagged(g.informational, Informational) else [])
      + (if intent == Commercial then Tagged(g.commercial, Commercial) else [])
      + (if intent == Transactional then Tagged(g.transactional, Transactional) else [])
  {
    var a, b, c := Tagged(g.informational, Informational), Tagged(g.commercial, Commercial), Tagged(g.transactional, Transactional);
    WithIntentAppend(a + b, c, intent);
    WithIntentAppend(a, b, intent);
    WithIntentTagged(g.informational, Informational, intent);
    WithIntentTagged(g.commercial, Commercial, intent);
    WithIntentTagged(g.transactional, Transactional, intent);
  }

  lemma KeywordsOfTagged(keywords: seq<string>, intent: string)
    ensures Keywords(Tagged(keywords, intent)) == keywords
  {
  }

  /** The keywords tagged with `intent`, in order. */
  function WithIntent(ks: seq<KeywordWithIntent>, intent: string): seq<KeywordWithIntent>
  {
    if ks == [] then []
    else if ks[0].intent == intent then [ks[0]] + WithIntent(ks[1..], intent)
    else WithIntent(ks[1..], intent)
  }

  function Keywords(ks: seq<KeywordWithIntent>): (r: seq<string>)
    ensures |r| == |ks| && forall i :: 0 <= i < |ks| ==> r[i] == ks[i].keyword
  {
    seq(|ks|, i requires 0 <= i < |ks| => ks[i].keyword)
  }

  lemma {:induction false} WithIntentAppend(a: seq<KeywordWithIntent>, b: seq<KeywordWithIntent>, intent: string)
    ensures WithIntent(a + b, intent) == WithIntent(a, intent) + WithIntent(b, intent)
  {
    if a == [] {
      assert a + b == b;
    } else {
      assert (a + b)[1..] == a[1..] + b;
      WithIntentAppend(a[1..], b, intent);
    }
  }

  lemma {:induction false} WithIntentTagged(keywords: seq<string>, tag: string, intent: string)
    ensures WithIntent(Tagged(keywords, tag), intent) == if tag == intent then Tagged(keywords, tag) else []
  {
    if keywords != [] {
      assert Tagged(keywords, tag)[1..] == Tagged(keywords[1..], tag);
      WithIntentTagged(keywords[1..], tag, intent);
    }
  }

  /**
   * `generateKeywordsForTopic`: a topic that has keywords is returned as it
   * is; otherwise the model's lists are merged, or its error is passed on.
   */
  function TopicWithKeywords(t: TopicResult, llm: string -> Result<GeneratedKeywords>): (r: Result<TopicResult>)
    ensures r.Err? <==> |t.keywords| == 0 && llm(t.topic).Err?
    ensures r.Err? ==> r.error == llm(t.topic).error
    ensures r.Ok? ==> r.value.topic == t.topic && r.value.searchEngines == t.searchEngines && (|t.keywords| > 0 ==> r.value == t)
  {
    if |t.keywords| > 0 then Ok(t)
    else
      match llm(t.topic)
      case Err(e) => Err(e)
      case Ok(g) => Ok(TopicResult(t.topic, MergedKeywords(g), t.searchEngines))
  }

  method GenerateKeywordsForTopic(t: TopicResult, llm: string -> Result<GeneratedKeywords>)
    returns (r: Result<TopicResult>)
    ensures r == TopicWithKeywords(t, llm)
    ensures |t.keywords| > 0 ==> r == Ok(t)
    ensures |t.keywords| == 0 && llm(t.topic).Err? ==> r == Err(llm(t.topic).error)
    ensures |t.keywords| == 0 && llm(t.topic).Ok? ==>
      r.Ok? && r.value.topic == t.topic && r.value.searchEngines == t.searchEngines
      && |r.value.keywords| == |llm(t.topic).value.informational| + |llm(t.topic).value.commercial|
           + |llm(t.topic).value.transactional|
  {
    if |t.keywords| > 0 {
      return Ok(t);
    }
    var result := llm(t.topic);
    if result.Err? {
      return Err(result.error);
    }
    var generated := result.value;
    var keywordsWithIntent := AppendTagged([], generated.informational, Informational);
    keywordsWithIntent := AppendTagged(keywordsWithIntent, generated.commercial, Commercial);
    keywordsWithIntent := AppendTagged(keywordsWithIntent, generated.transactional, Transactional);
    assert [] + Tagged(generated.informational, Informational) == Tagged(generated.informational, Informational);
    r := Ok(TopicResult(t.topic, keywordsWithIntent, t.searchEngines));
    MergedGroups(generated);
  }

  /** `searchKeyword`'s conversion: the brand's appearance counts 1, its absence 0. */
  function StatsFromParsed(p: ParsedStats): (s: EngineStats)
    ensures s.totalAppearances == (if p.hasBrandAppeared then 1 else 0)
    ensures s.distinctBrands == p.distinctBrands && s.avgVisibilityPosition == p.avgVisibilityPosition
    ensures s.totalLinks == 0 && s.userLinkAppearances == 0 && s.history == []
  {
    EngineStats(if p.hasBrandAppeared then 1 else 0, p.distinctBrands, 0, p.avgVisibilityPosition, 0, [])
  }

  /** The outcome of `searchKeyword` for one keyword. */
  function SearchKeyword(search: string -> Result<ParsedStats>, keyword: string): Result<EngineStats>
  {
    match search(keyword)
    case Err(e) => Err(e)
    case Ok(p) => Ok(StatsFromParsed(p))
  }

  /** The successful results, as they arrive on the result channel. */
  function Successes(outcomes: seq<Result<EngineStats>>): seq<EngineStats>
  {
    if outcomes == [] then []
    else
      var last := outcomes[|outcomes| - 1];
      Successes(outcomes[..|outcomes| - 1]) + (if last.Ok? then [last.value] else [])
  }

  function Sum(s: seq<EngineStats>, f: EngineStats -> int): int
  {
    if s == [] then 0 else Sum(s[..|s| - 1], f) + f(s[|s| - 1])
  }

  function SumReal(s: seq<EngineStats>, f: EngineStats -> real): real
  {
    if s == [] then 0.0 else SumReal(s[..|s| - 1], f) + f(s[|s| - 1])
  }

  function Appearances(s: EngineStats): int { s.totalAppearances }
  function Brands(s: EngineStats): int { s.distinctBrands }
  function Visibility(s: EngineStats): real { s.avgVisibilityPosition }

  /** Go's integer division, which truncates toward zero. */
  function GoDiv(a: int, b: int): (q: int)
    requires b > 0
    ensures a >= 0 ==> 0 <= q * b <= a < q * b + b
    ensures a < 0 ==> q * b - b < a <= q * b <= 0
  {
    if a >= 0 then
      var q := a / b;
      assert a == b * q + a % b && 0 <= a % b < b;
      assert 0 <= b * q by { DivNonNegative(a, b); }
      q
    else
      var m := (-a) / b;
      assert -a == b * m + (-a) % b && 0 <= (-a) % b < b;
      assert 0 <= b * m by { DivNonNegative(-a, b); }
      -m
  }

  lemma DivNonNegative(a: int, b: int)
    requires a >= 0 && b > 0
    ensures a / b >= 0 && b * (a / b) >= 0
  {
  }

  /** The ChatGPT history a topic already carries; a nil history counts as empty. */
  function PreviousHistory(t: TopicResult): seq<HistoryPoint>
  {
    if t.searchEngines.Some? && ChatGPT in t.searchEngines.value then t.searchEngines.value[ChatGPT].history
    else []
  }

  /** The aggregated record for the successful results among `outcomes`. */
  function Aggregate(outcomes: seq<Result<EngineStats>>, previous: seq<HistoryPoint>, now: string): EngineStats
  {
    var results := Successes(outcomes);
    var resultCount := |results|;
    var appearancesSum := Sum(results, Appearances);
    EngineStats(
      appearancesSum,
      if resultCount > 0 then GoDiv(Sum(results, Brands), resultCount) else 0,
      0,
      if resultCount > 0 then SumReal(results, Visibility) / resultCount as real else 0.0,
      0,
      previous + [HistoryPoint(now, appearancesSum)])
  }

  function KeywordOutcomes(search: string -> Result<ParsedStats>, keywords: seq<KeywordWithIntent>): seq<Result<EngineStats>>
  {
    seq(|keywords|, i requires 0 <= i < |keywords| => SearchKeyword(search, keywords[i].keyword))
  }

  /** `generateChatGPTSearchStats`. */
  function ChatGPTStats(t: TopicResult, search: string -> Result<ParsedStats>, now: string): (r: EngineStats)
    ensures |t.keywords| > 0 ==> r.history == PreviousHistory(t) + [HistoryPoint(now, r.totalAppearances)]
  {
    if |t.keywords| == 0 then ZeroStats
    else Aggregate(KeywordOutcomes(search, t.keywords), PreviousHistory(t), now)
  }

  /**
   * Collects the keywords, runs one search per keyword (concurrently in the
   * handler, here in order) and sums the successful results.
   */
  method GenerateChatGPTSearchStats(t: TopicResult, search: string -> Result<ParsedStats>, now: string)
    returns (stats: EngineStats)
    ensures stats == ChatGPTStats(t, search, now)
  {
    var keywords: seq<string> := [];
    for i := 0 to |t.keywords|
      invariant |keywords| == i && forall j :: 0 <= j < i ==> keywords[j] == t.keywords[j].keyword
    {
      keywords := keywords + [t.keywords[i].keyword];
    }
    if |keywords| == 0 {
      return EngineStats(0, 0, 0, 0.0, 0, []);
    }
    var outcomes := seq(|keywords|, i requires 0 <= i < |keywords| => SearchKeyword(search, keywords[i]));
    assert outcomes == KeywordOutcomes(search, t.keywords);
    var previous := PreviousHistory(t);
    var collected: seq<EngineStats> := [];
    for i := 0 to |outcomes|
      invariant collected == Successes(outcomes[..i])
    {
      assert outcomes[..i + 1][..i] == outcomes[..i];
      if outcomes[i].Ok? {
        collected := collected + [outcomes[i].value];
      }
    }
    assert outcomes[..|outcomes|] == outcomes;
    var resultCount, totalAppearancesSum, totalDistinctBrandsSum, totalVisibilitySum := SumResults(collected);
    stats := EngineStats(0, 0, 0, 0.0, 0, previous);
    var newPoint := HistoryPoint(now, 0);
    if resultCount > 0 {
      stats := stats.(totalAppearances := totalAppearancesSum,
                      distinctBrands := GoDiv(totalDistinctBrandsSum, resultCount),
                      avgVisibilityPosition := totalVisibilitySum / resultCount as real);
      newPoint := newPoint.(appearances := totalAppearancesSum);
    }
    stats := stats.(history := stats.history + [newPoint]);
  }

  /** The summing loop over the successful searches. */
  method SumResults(collected: seq<EngineStats>)
    returns (resultCount: nat, totalAppearancesSum: int, totalDistinctBrandsSum: int, totalVisibilitySum: real)
    ensures resultCount == |collected|
    ensures totalAppearancesSum == Sum(collected, Appearances)
    ensures totalDistinctBrandsSum == Sum(collected, Brands)
    ensures totalVisibilitySum == SumReal(collected, Visibility)
  {
    resultCount, totalVisibilitySum, totalAppearancesSum, totalDistinctBrandsSum := 0, 0.0, 0, 0;
    for i := 0 to |collected|
      invariant resultCount == i
      invariant totalAppearancesSum == Sum(collected[..i], Appearances)
      invariant totalDistinctBrandsSum == Sum(collected[..i], Brands)
      invariant totalVisibilitySum == SumReal(collected[..i], Visibility)
    {
      assert collected[..i + 1][..i] == collected[..i];
      resultCount := resultCount + 1;
      totalAppearancesSum := totalAppearancesSum + collected[i].totalAppearances;
      totalDistinctBrandsSum := totalDistinctBrandsSum + collected[i].distinctBrands;
      totalVisibilitySum := totalVisibilitySum + collected[i].avgVisibilityPosition;
    }
    assert collected[..|collected|] == collected;
  }

  /** A topic without keywords gets an all-zero record with no history, whatever history it had. */
  lemma ChatGPTStatsWithoutKeywords(t: TopicResult, search: string -> Result<ParsedStats>, now: string)
    requires |t.keywords| == 0
    ensures ChatGPTStats(t, search, now) == ZeroStats
  {
  }

  /**
   * With keywords, the history is the previous ChatGPT history plus exactly
   * one point at `now` carrying the summed appearances; with no successful
   * search the counters stay 0.
   */
  lemma ChatGPTHistoryGrowsByOne(t: TopicResult, search: string -> Result<ParsedStats>, now: string)
    requires |t.keywords| > 0
    ensures var s := ChatGPTStats(t, search, now);
      && |s.history| == |PreviousHistory(t)| + 1
      && s.history[..|PreviousHistory(t)|] == PreviousHistory(t)
      && s.history[|PreviousHistory(t)|] == HistoryPoint(now, s.totalAppearances)
      && (Successes(KeywordOutcomes(search, t.keywords)) == [] ==> s.totalAppearances == 0 && s.distinctBrands == 0)
  {
  }

  /**
   * Each successful search adds 0 or 1, so the total is between 0 and the
   * number of successful searches, which is at most the number of keywords.
   */
  lemma TotalAppearancesBounded(t: TopicResult, search: string -> Result<ParsedStats>, now: string)
    ensures var s := ChatGPTStats(t, search, now);
      0 <= s.totalAppearances <= |Successes(KeywordOutcomes(search, t.keywords))| <= |t.keywords|
  {
    var outcomes := KeywordOutcomes(search, t.keywords);
    SuccessesOfSearches(outcomes);
    SumOfZeroOnes(Successes(outcomes));
  }

  lemma {:induction false} SuccessesOfSearches(outcomes: seq<Result<EngineStats>>)
    requires forall i :: 0 <= i < |outcomes| && outcomes[i].Ok? ==> 0 <= outcomes[i].value.totalAppearances <= 1
    ensures |Successes(outcomes)| <= |outcomes|
    ensures forall v :: v in Successes(outcomes) ==> 0 <= v.totalAppearances <= 1
  {
    if outcomes != [] {
      SuccessesOfSearches(outcomes[..|outcomes| - 1]);
    }
  }

  lemma {:induction false} SumOfZeroOnes(s: seq<EngineStats>)
    requires forall v :: v in s ==> 0 <= v.totalAppearances <= 1
    ensures 0 <= Sum(s, Appearances) <= |s|
  {
    if s != [] {
      assert s[|s| - 1] in s;
      SumOfZeroOnes(s[..|s| - 1]);
    }
  }

  /**
   * The integer figures and the history do not depend on the order in which
   * the concurrent searches deliver their outcomes.
   */
  lemma AggregateOrderIndependent(a: seq<Result<EngineStats>>, b: seq<Result<EngineStats>>,
                                  previous: seq<HistoryPoint>, now: string)
    requires multiset(a) == multiset(b)
    ensures Aggregate(a, previous, now).totalAppearances == Aggregate(b, previous, now).totalAppearances
    ensures Aggregate(a, previous, now).distinctBrands == Aggregate(b, previous, now).distinctBrands
    ensures Aggregate(a, previous, now).history == Aggregate(b, previous, now).history
  {
    SuccessesPermutation(a, b);
    SumPermutation(Successes(a), Successes(b), Appearances);
    SumPermutation(Successes(a), Successes(b), Brands);
    assert |Successes(a)| == |multiset(Successes(a))| == |multiset(Successes(b))| == |Successes(b)|;
  }

  lemma SuccessesPermutation(a: seq<Result<EngineStats>>, b: seq<Result<EngineStats>>)
    requires multiset(a) == multiset(b)
    ensures multiset(Successes(a)) == multiset(Successes(b))
  {
    forall v ensures multiset(Successes(a))[v] == multiset(Successes(b))[v] {
      SuccessesCount(a, v);
      SuccessesCount(b, v);
    }
  }

  lemma {:induction false} SuccessesCount(a: seq<Result<EngineStats>>, v: EngineStats)
    ensures multiset(Successes(a))[v] == multiset(a)[Ok(v)]
  {
    if a != [] {
      var init := a[..|a| - 1];
      SuccessesCount(init, v);
      assert a == init + [a[|a| - 1]];
    }
  }

  lemma {:induction false} SumAppend(a: seq<EngineStats>, b: seq<EngineStats>, f: EngineStats -> int)
    ensures Sum(a + b, f) == Sum(a, f) + Sum(b, f)
    decreases |b|
  {
    if b == [] {
      assert a + b == a;
    } else {
      assert (a + b)[..|a + b| - 1] == a + b[..|b| - 1];
      SumAppend(a, b[..|b| - 1], f);
    }
  }

  lemma {:induction false} SumPermutation(a: seq<EngineStats>, b: seq<EngineStats>, f: EngineStats -> int)
    requires multiset(a) == multiset(b)
    ensures Sum(a, f) == Sum(b, f)
    decreases |a|
  {
    if a == [] {
      assert |b| == |multiset(b)| == 0;
    } else {
      var x := a[|a| - 1];
      assert x in multiset(b) by { assert x in multiset(a); }
      var k :| 0 <= k < |b| && b[k] == x;
      var rest := b[..k] + b[k + 1..];
      MultisetRemove(a, b, k);
      SumPermutation(a[..|a| - 1], rest, f);
      assert b == b[..k] + [x] + b[k + 1..];
      SumMiddle(b[..k], x, b[k + 1..], f);
    }
  }

  /** Taking the last element off `a` and a copy of it off `b` keeps the multisets equal. */
  lemma MultisetRemove(a: seq<EngineStats>, b: seq<EngineStats>, k: nat)
    requires multiset(a) == multiset(b) && a != [] && k < |b| && b[k] == a[|a| - 1]
    ensures multiset(a[..|a| - 1]) == multiset(b[..k] + b[k + 1..])
  {
    var x := a[|a| - 1];
    assert a == a[..|a| - 1] + [x];
    assert b == b[..k] + [x] + b[k + 1..];
    var rest := b[..k] + b[k + 1..];
    assert multiset(a) == multiset(a[..|a| - 1]) + multiset{x};
    assert multiset(b) == multiset(b[..k]) + multiset{x} + multiset(b[k + 1..]);
    assert multiset(rest) == multiset(b[..k]) + multiset(b[k + 1..]);
    forall y ensures multiset(a[..|a| - 1])[y] == multiset(rest)[y] {
      assert multiset(a)[y] == multiset(b)[y];
    }
  }

  /** The sum with one element in the middle is the sum without it, plus that element. */
  lemma SumMiddle(before: seq<EngineStats>, x: EngineStats, after: seq<EngineStats>, f: EngineStats -> int)
    ensures Sum(before + [x] + after, f) == Sum(before + after, f) + f(x)
  {
    SumAppend(before + [x], after, f);
    SumAppend(before, [x], f);
    SumAppend(before, after, f);
    assert Sum([x], f) == f(x) by { assert [x][..0] == []; }
  }

  /** `injectSearchEngineData` on one result: a fresh map for a nil one, then the `ChatGPT` entry set. */
  function InjectedTopic(t: TopicResult, search: string -> Result<ParsedStats>, now: string): TopicResult
  {
    var engines := if t.searchEngines.Some? then t.searchEngines.value else map[];
    t.(searchEngines := Some(engines[ChatGPT := ChatGPTStats(t, search, now)]))
  }

  /**
   * Injection sets only the `ChatGPT` entry, to the aggregated record, and
   * keeps every other engine, the topic and the keywords.
   */
  lemma InjectedTopicSpec(t: TopicResult, search: string -> Result<ParsedStats>, now: string)
    ensures var r := InjectedTopic(t, search, now);
      && r.topic == t.topic && r.keywords == t.keywords
      && r.searchEngines.Some? && ChatGPT in r.searchEngines.value
      && r.searchEngines.value[ChatGPT] == ChatGPTStats(t, search, now)
      && (forall name :: name != ChatGPT ==>
            (name in r.searchEngines.value <==> t.searchEngines.Some? && name in t.searchEngines.value))
      && forall name :: name != ChatGPT && t.searchEngines.Some? && name in t.searchEngines.value ==>
           r.searchEngines.value[name] == t.searchEngines.value[name]
  {
  }

  /**
   * Sets every result's `ChatGPT` entry in place, by index. The clock is
   * read once per result: `clock(i)` is the reading taken for result `i`.
   */
  method InjectSearchEngineData(results: array<TopicResult>, search: string -> Result<ParsedStats>, clock: nat -> string)
    modifies results
    ensures forall i :: 0 <= i < results.Length ==> results[i] == InjectedTopic(old(results[i]), search, clock(i))
  {
    for i := 0 to results.Length
      invariant forall j :: 0 <= j < i ==> results[j] == InjectedTopic(old(results[j]), search, clock(j))
      invariant forall j :: i <= j < results.Length ==> results[j] == old(results[j])
    {
      var injected := InjectOne(results[i], search, clock(i));
      results[i] := injected;
    }
  }

  /** The loop body of `injectSearchEngineData` for one result. */
  method InjectOne(t: TopicResult, search: string -> Result<ParsedStats>, now: string) returns (r: TopicResult)
    ensures r == InjectedTopic(t, search, now)
  {
    var engines := if t.searchEngines.Some? then t.searchEngines.value else map[];
    var stats := GenerateChatGPTSearchStats(t, search, now);
    r := t.(searchEngines := Some(engines[ChatGPT := stats]));
  }

  /** Keyword generation for every topic in request order, stopping at the first error. */
  function GenerateAll(topics: seq<TopicResult>, llm: string -> Result<GeneratedKeywords>): (r: Result<seq<TopicResult>>)
    ensures r.Ok? ==> |r.value| == |topics|
  {
    if topics == [] then Ok([])
    else
      match GenerateAll(topics[..|topics| - 1], llm)
      case Err(e) => Err(e)
      case Ok(rs) =>
        match TopicWithKeywords(topics[|topics| - 1], llm)
        case Err(e) => Err(e)
        case Ok(r) => Ok(rs + [r])
  }

  /** Success gives one result per topic, in request order. */
  lemma {:induction false} GenerateAllOk(topics: seq<TopicResult>, llm: string -> Result<GeneratedKeywords>)
    requires GenerateAll(topics, llm).Ok?
    ensures |GenerateAll(topics, llm).value| == |topics|
    ensures forall i :: 0 <= i < |topics| ==> TopicWithKeywords(topics[i], llm) == Ok(GenerateAll(topics, llm).value[i])
  {
    if topics != [] {
      var init := topics[..|topics| - 1];
      GenerateAllOk(init, llm);
      assert forall i :: 0 <= i < |init| ==> init[i] == topics[i];
    }
  }

  /** Failure reports the first topic whose generation failed. */
  lemma {:induction false} GenerateAllErr(topics: seq<TopicResult>, llm: string -> Result<GeneratedKeywords>)
    requires GenerateAll(topics, llm).Err?
    ensures exists i :: (0 <= i < |topics|
      && TopicWithKeywords(topics[i], llm) == Err(GenerateAll(topics, llm).error)
      && forall j :: 0 <= j < i ==> TopicWithKeywords(topics[j], llm).Ok?)
  {
    var init := topics[..|topics| - 1];
    assert forall i :: 0 <= i < |init| ==> init[i] == topics[i];
    if GenerateAll(init, llm).Err? {
      GenerateAllErr(init, llm);
      var i :| 0 <= i < |init| && TopicWithKeywords(init[i], llm) == Err(GenerateAll(init, llm).error)
        && forall j :: 0 <= j < i ==> TopicWithKeywords(init[j], llm).Ok?;
      assert TopicWithKeywords(topics[i], llm) == Err(GenerateAll(topics, llm).error);
    } else {
      GenerateAllOk(init, llm);
      assert TopicWithKeywords(topics[|topics| - 1], llm) == Err(GenerateAll(topics, llm).error);
    }
  }

  /** An error in a prefix of the topics is the error of the whole request. */
  lemma {:induction false} GenerateAllPrefixErr(topics: seq<TopicResult>, n: nat, llm: string -> Result<GeneratedKeywords>)
    requires n <= |topics| && GenerateAll(topics[..n], llm).Err?
    ensures GenerateAll(topics, llm) == GenerateAll(topics[..n], llm)
    decreases |topics| - n
  {
    if n < |topics| {
      assert topics[..n + 1][..n] == topics[..n];
      GenerateAllPrefixErr(topics, n + 1, llm);
    } else {
      assert topics[..n] == topics;
    }
  }

  /**
   * `HandleConversationalKeywords`: 400 for an unreadable body or no topics,
   * 500 with the first generation error, otherwise 200 with one result per
   * topic, in request order, each carrying a `ChatGPT` entry.
   */
  method HandleConversationalKeywords(
    request: Option<KeywordsRequest>,
    llm: string -> Result<GeneratedKeywords>,
    search: string -> Result<ParsedStats>,
    clock: nat -> string)
    returns (reply: Reply)
    ensures request.None? ==> reply == Reply(StatusBadRequest, ErrorBody("Invalid request format"))
    ensures request.Some? && |request.value.topics| == 0 ==>
      reply == Reply(StatusBadRequest, ErrorBody("No topics provided"))
    ensures request.Some? && |request.value.topics| > 0 && GenerateAll(request.value.topics, llm).Err? ==>
      reply == Reply(StatusInternalServerError, ErrorBody(GenerateAll(request.value.topics, llm).error))
    ensures request.Some? && |request.value.topics| > 0 && GenerateAll(request.value.topics, llm).Ok? ==>
      var generated := GenerateAll(request.value.topics, llm).value;
      && reply.status == StatusOK && reply.body.ResultsBody?
      && |reply.body.results| == |generated| == |request.value.topics|
      && forall i :: 0 <= i < |generated| ==>
           && reply.body.results[i] == InjectedTopic(generated[i], search, clock(i))
           && reply.body.results[i].topic == request.value.topics[i].topic
           && ChatGPT in reply.body.results[i].searchEngines.value
  {
    if request.None? {
      return Reply(StatusBadRequest, ErrorBody("Invalid request format"));
    }
    var topics := request.value.topics;
    if |topics| == 0 {
      return Reply(StatusBadRequest, ErrorBody("No topics provided"));
    }
    var generated := GenerateTopics(topics, llm);
    if generated.Err? {
      return Reply(StatusInternalServerError, ErrorBody(generated.error));
    }
    GenerateAllOk(topics, llm);
    var injected := InjectAll(generated.value, search, clock);
    reply := Reply(StatusOK, ResultsBody(injected));
    forall i | 0 <= i < |topics| ensures injected[i].topic == topics[i].topic {
      assert TopicWithKeywords(topics[i], llm) == Ok(generated.value[i]);
    }
  }

  /** The generation loop: topics in order, stopping at the first failure. */
  method GenerateTopics(topics: seq<TopicResult>, llm: string -> Result<GeneratedKeywords>)
    returns (r: Result<seq<TopicResult>>)
    ensures r == GenerateAll(topics, llm)
  {
    var results: seq<TopicResult> := [];
    for i := 0 to |topics|
      invariant GenerateAll(topics[..i], llm) == Ok(results)
    {
      var topicResult := GenerateKeywordsForTopic(topics[i], llm);
      assert topics[..i + 1][..i] == topics[..i];
      if topicResult.Err? {
        GenerateAllPrefixErr(topics, i + 1, llm);
        return Err(topicResult.error);
      }
      results := results + [topicResult.value];
    }
    assert topics[..|topics|] == topics;
    return Ok(results);
  }

  /** The generated results copied into a fresh slice and injected in place. */
  method InjectAll(results: seq<TopicResult>, search: string -> Result<ParsedStats>, clock: nat -> string)
    returns (r: seq<TopicResult>)
    ensures |r| == |results|
    ensures forall i :: 0 <= i < |results| ==>
      && r[i] == InjectedTopic(results[i], search, clock(i))
      && r[i].topic == results[i].topic
      && ChatGPT in r[i].searchEngines.value
  {
    var response := new TopicResult[|results|](i requires 0 <= i < |results| => results[i]);
    InjectSearchEngineData(response, search, clock);
    r := response[..];
    forall i | 0 <= i < |results| ensures r[i].topic == results[i].topic && ChatGPT in r[i].searchEngines.value {
      InjectedTopicSpec(results[i], search, clock(i));
    }
  }
}

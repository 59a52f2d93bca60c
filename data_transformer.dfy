/**
 * The dashboard's response transformer: turns the backend's per-topic results
 * into view items, substituting defaults for missing fields and choosing one
 * engine's statistics as the item's headline ("aggregated") figures.
 *
 * JSON values that may be missing are `Option`s; JavaScript's `x || 0` maps a
 * missing value and a present 0 alike to 0, which is what `OrZero` does.
 */
module DataTransformer {
  import opened Wrappers
  import opened Stats
  import Text
  import Seqs

  /** A history point as received; either field may be missing. */
  datatype RawPoint = RawPoint(timepoint: Option<string>, appearances: Option<int>)

  /** The `history` field as received: missing, present but not an array, or an array. */
  datatype RawHistory = Absent | NotAnArray | Points(points: seq<RawPoint>)

  datatype RawEngineStats = RawEngineStats(
    totalAppearances: Option<int>,
    distinctBrands: Option<int>,
    totalLinks: Option<int>,
    avgVisibilityPosition: Option<real>,
    userLinkAppearances: Option<int>,
    history: RawHistory)

  /** One entry of `results`: a topic label and, possibly, its engine mapping. */
  datatype RawTopic = RawTopic(topic: string, searchEngines: Option<seq<(string, RawEngineStats)>>)

  datatype RawResponse = RawResponse(results: Option<seq<RawTopic>>)

  /** A view item; `aggregated` is absent when the topic has no engines. */
  datatype TopicKeywordData = TopicKeywordData(
    id: string,
    name: string,
    searchEngines: Engines,
    aggregated: Option<EngineStats>)

  /** `x || 0` on a number. */
  function OrZero(x: Option<int>): int
  {
    if x.Some? then x.value else 0
  }

  function OrZeroReal(x: Option<real>): real
  {
    if x.Some? then x.value else 0.0
  }

  /** `x || ''` on a string. */
  function OrEmpty(x: Option<string>): string
  {
    if x.Some? then x.value else ""
  }

  function ConvertPoint(p: RawPoint): HistoryPoint
  {
    HistoryPoint(OrEmpty(p.timepoint), OrZero(p.appearances))
  }

  /** A missing or non-array history becomes `[]`; an array is converted point by point. */
  function ConvertHistory(h: RawHistory): (r: seq<HistoryPoint>)
    ensures !h.Points? ==> r == []
    ensures h.Points? ==> |r| == |h.points|
    ensures h.Points? ==> forall k :: 0 <= k < |r| ==>
      r[k].timepoint == (if h.points[k].timepoint.Some? then h.points[k].timepoint.value else "") &&
      r[k].appearances == (if h.points[k].appearances.Some? then h.points[k].appearances.value else 0)
  {
    match h
    case Points(ps) => seq(|ps|, k requires 0 <= k < |ps| => ConvertPoint(ps[k]))
    case _ => []
  }

  /** One engine's statistics with every missing field replaced by its default. */
  function ConvertStats(raw: RawEngineStats): (s: EngineStats)
    ensures raw.totalAppearances.Some? ==> s.totalAppearances == raw.totalAppearances.value
    ensures raw.totalAppearances.None? ==> s.totalAppearances == 0
    ensures raw.distinctBrands.Some? ==> s.distinctBrands == raw.distinctBrands.value
    ensures raw.distinctBrands.None? ==> s.distinctBrands == 0
    ensures raw.totalLinks.Some? ==> s.totalLinks == raw.totalLinks.value
    ensures raw.totalLinks.None? ==> s.totalLinks == 0
    ensures raw.avgVisibilityPosition.Some? ==> s.avgVisibilityPosition == raw.avgVisibilityPosition.value
    ensures raw.avgVisibilityPosition.None? ==> s.avgVisibilityPosition == 0.0
    ensures raw.userLinkAppearances.Some? ==> s.userLinkAppearances == raw.userLinkAppearances.value
    ensures raw.userLinkAppearances.None? ==> s.userLinkAppearances == 0
    ensures raw.history.Points? ==> |s.history| == |raw.history.points|
    ensures !raw.history.Points? ==> s.history == []
  {
    EngineStats(
      OrZero(raw.totalAppearances),
      OrZero(raw.distinctBrands),
      OrZero(raw.totalLinks),
      OrZeroReal(raw.avgVisibilityPosition),
      OrZero(raw.userLinkAppearances),
      ConvertHistory(raw.history))
  }

  /** The converted engine mapping: same names in the same order, each entry converted. */
  function ConvertedEngines(src: seq<(string, RawEngineStats)>): (r: Engines)
    ensures Names(r) == Names(src)
    ensures forall i :: 0 <= i < |src| ==> r[i].1 == ConvertStats(src[i].1)
  {
    seq(|src|, i requires 0 <= i < |src| => (src[i].0, ConvertStats(src[i].1)))
  }

  /**
   * The `forEach` over the engine names that fills the item's
   * `searchEngines` object one key at a time.
   */
  method BuildSearchEngines(src: seq<(string, RawEngineStats)>) returns (out: Engines)
    ensures out == ConvertedEngines(src)
  {
    out := [];
    var i := 0;
    while i < |src|
      invariant 0 <= i <= |src|
      invariant out == ConvertedEngines(src[..i])
    {
      var (engineName, engineData) := src[i];
      out := out + [(engineName, ConvertStats(engineData))];
      assert src[..i + 1] == src[..i] + [src[i]];
      i := i + 1;
    }
    assert src[..i] == src;
  }

  /** Looking a name up in the converted mapping converts what the raw mapping holds. */
  lemma {:induction false} LookupConverted(src: seq<(string, RawEngineStats)>, name: string)
    ensures Lookup(ConvertedEngines(src), name) ==
      (if Lookup(src, name).Some? then Some(ConvertStats(Lookup(src, name).value)) else None)
  {
    if src != [] {
      LookupConverted(src[1..], name);
      assert ConvertedEngines(src)[1..] == ConvertedEngines(src[1..]);
    }
  }

  /**
   * `ChatGPT` when present, otherwise the first engine in key order,
   * otherwise nothing.
   */
  function ChooseAggregated(converted: Engines, engineNames: seq<string>): (r: Option<EngineStats>)
    ensures Lookup(converted, ChatGPT).Some? ==> r == Lookup(converted, ChatGPT)
    ensures r.Some? ==> r == Lookup(converted, ChatGPT) || (|engineNames| > 0 && r == Lookup(converted, engineNames[0]))
    ensures engineNames == [] ==> r == Lookup(converted, ChatGPT)
  {
    if Lookup(converted, ChatGPT).Some? then Lookup(converted, ChatGPT)
    else if |engineNames| > 0 then Lookup(converted, engineNames[0])
    else None
  }

  function RawEnginesOf(t: RawTopic): seq<(string, RawEngineStats)>
  {
    if t.searchEngines.Some? then t.searchEngines.value else []
  }

  /** The callback of `results.map`: the view item for the topic at `index`. */
  function TransformTopic(index: nat, t: RawTopic): (r: TopicKeywordData)
    ensures Names(r.searchEngines) == Names(RawEnginesOf(t))
    ensures r.aggregated.None? <==> |RawEnginesOf(t)| == 0
  {
    var searchEngines := RawEnginesOf(t);
    var engineNames := Names(searchEngines);
    var converted := ConvertedEngines(searchEngines);
    TopicKeywordData(Text.NatToString(index), t.topic, converted, ChooseAggregated(converted, engineNames))
  }

  function ResultsOf(response: RawResponse): seq<RawTopic>
  {
    if response.results.Some? then response.results.value else []
  }

  /** `transformApiResponseToUiFormat`. */
  function Transform(response: RawResponse): (r: seq<TopicKeywordData>)
    ensures |r| == |ResultsOf(response)|
    ensures forall i :: 0 <= i < |r| ==>
      r[i].id == Text.NatToString(i) && r[i].name == ResultsOf(response)[i].topic
  {
    if response.results.None? || |response.results.value| == 0 then []
    else
      var results := response.results.value;
      seq(|results|, i requires 0 <= i < |results| => TransformTopic(i, results[i]))
  }

  /** Missing or empty `results` give no items. */
  lemma TransformEmpty(response: RawResponse)
    requires response.results.None? || response.results.value == []
    ensures Transform(response) == []
  {
  }

  /** Every item's id is its position's numeral, so no two items share an id. */
  lemma TransformIdsDistinct(response: RawResponse)
    ensures Seqs.NoDuplicates(Ids(Transform(response)))
  {
    var r := Transform(response);
    forall i, j | 0 <= i < j < |r| ensures r[i].id != r[j].id {
      Text.NatToStringInjective(i, j);
    }
  }

  function Ids(items: seq<TopicKeywordData>): (r: seq<string>)
    ensures |r| == |items| && forall i :: 0 <= i < |items| ==> r[i] == items[i].id
  {
    seq(|items|, i requires 0 <= i < |items| => items[i].id)
  }

  /**
   * The item's engine mapping has exactly the topic's engine names, in
   * order (none when `searchEngines` is missing), each entry converted.
   */
  lemma TransformEngines(response: RawResponse, i: nat)
    requires i < |ResultsOf(response)|
    ensures var t := ResultsOf(response)[i];
      && Names(Transform(response)[i].searchEngines) == Names(RawEnginesOf(t))
      && (t.searchEngines.None? ==> Transform(response)[i].searchEngines == [])
      && forall k :: 0 <= k < |RawEnginesOf(t)| ==>
           Transform(response)[i].searchEngines[k].1 == ConvertStats(RawEnginesOf(t)[k].1)
  {
  }

  /** The transformer keeps a well-formed engine mapping well-formed. */
  lemma TransformKeepsDistinctNames(t: RawTopic, index: nat)
    requires DistinctNames(RawEnginesOf(t))
    ensures DistinctNames(TransformTopic(index, t).searchEngines)
  {
    var c := TransformTopic(index, t).searchEngines;
    assert Names(c) == Names(RawEnginesOf(t));
    forall i, j | 0 <= i < j < |c| ensures c[i].0 != c[j].0 {
      assert Names(c)[i] == Names(RawEnginesOf(t))[i];
      assert Names(c)[j] == Names(RawEnginesOf(t))[j];
    }
  }

  /** With a `ChatGPT` engine, the headline figures are its converted statistics, whatever else is there. */
  lemma AggregatedPrefersChatGPT(t: RawTopic, index: nat)
    requires Lookup(RawEnginesOf(t), ChatGPT).Some?
    ensures TransformTopic(index, t).aggregated == Some(ConvertStats(Lookup(RawEnginesOf(t), ChatGPT).value))
  {
    LookupConverted(RawEnginesOf(t), ChatGPT);
  }

  /** Without `ChatGPT`, the headline figures are those of the first engine in key order. */
  lemma AggregatedFallsBackToFirst(t: RawTopic, index: nat)
    requires Lookup(RawEnginesOf(t), ChatGPT).None? && |RawEnginesOf(t)| > 0
    ensures TransformTopic(index, t).aggregated == Some(ConvertStats(RawEnginesOf(t)[0].1))
  {
    var src := RawEnginesOf(t);
    LookupConverted(src, ChatGPT);
    LookupConverted(src, src[0].0);
  }

  /** With no engines there are no headline figures: no zero record is made up. */
  lemma AggregatedAbsentWithoutEngines(t: RawTopic, index: nat)
    ensures TransformTopic(index, t).aggregated.None? <==> |RawEnginesOf(t)| == 0
  {
    var src := RawEnginesOf(t);
    LookupConverted(src, ChatGPT);
    if |src| > 0 {
      LookupConverted(src, src[0].0);
    }
  }
}

/**
 * Per-engine statistics, shared by the backend and the dashboard.
 * Floating-point `avgVisibilityPosition` is carried as a `real` and never
 * inspected beyond being copied or averaged.
 */
module Stats {
  import opened Wrappers

  /** One time-bucketed appearance count. */
  datatype HistoryPoint = HistoryPoint(timepoint: string, appearances: int)

  datatype EngineStats = EngineStats(
    totalAppearances: int,
    distinctBrands: int,
    totalLinks: int,
    avgVisibilityPosition: real,
    userLinkAppearances: int,
    history: seq<HistoryPoint>)

  /** All counters zero and no history. */
  const ZeroStats := EngineStats(0, 0, 0, 0.0, 0, [])

  /** The engine name under which the backend stores its own measurements. */
  const ChatGPT := "ChatGPT"

  /**
   * A JavaScript object from engine name to statistics, as its entries in
   * `Object.keys` order; a well-formed one names each engine once.
   */
  type Engines = seq<(string, EngineStats)>

  function Names<T>(e: seq<(string, T)>): (r: seq<string>)
    ensures |r| == |e| && forall i :: 0 <= i < |e| ==> r[i] == e[i].0
  {
    seq(|e|, i requires 0 <= i < |e| => e[i].0)
  }

  predicate DistinctNames<T>(e: seq<(string, T)>)
  {
    forall i, j :: 0 <= i < j < |e| ==> e[i].0 != e[j].0
  }

  /** `engines[name]`: the statistics stored under `name`, if any. */
  function Lookup<T(==)>(e: seq<(string, T)>, name: string): (r: Option<T>)
    ensures r.None? <==> name !in Names(e)
    ensures r.Some? ==> exists i :: 0 <= i < |e| && e[i] == (name, r.value)
  {
    if e == [] then None
    else if e[0].0 == name then Some(e[0].1)
    else
      var r := Lookup(e[1..], name);
      assert Names(e) == [e[0].0] + Names(e[1..]);
      if r.Some? then
        var i :| 0 <= i < |e[1..]| && e[1..][i] == (name, r.value);
        assert e[i + 1] == (name, r.value);
        r
      else r
  }
}

/**
 * The performance table and chart: headline figures per item, search,
 * pagination, the automatic selection of chart lines, selection toggling,
 * the chart series and the line colours.
 *
 * The component reads the history as `weeklyHistory`/`week`; this model
 * reads the single `history`/`timepoint` field of `EngineStats`.
 */
module TopicKeywordPerformance {
  import opened Wrappers
  import opened Stats
  import opened Seqs
  import Text
  import DataTransformer

  type TopicKeywordData = DataTransformer.TopicKeywordData

  /** An item of `processedData`: the input item with its ChatGPT figures as `aggregated`. */
  datatype Row = Row(id: string, name: string, searchEngines: Engines, aggregated: EngineStats)

  const ItemsPerPage: nat := 10

  /** Automatic selection tops the selection up to this many ids. */
  const AutoSelectCount: nat := 5

  /** `processedData`: each item keeps id, name and engines and gets its ChatGPT figures, or zeros. */
  function Process(data: seq<TopicKeywordData>): (r: seq<Row>)
    ensures |r| == |data|
    ensures forall i :: 0 <= i < |data| ==>
      && r[i].id == data[i].id && r[i].name == data[i].name
      && r[i].searchEngines == data[i].searchEngines
      && (Lookup(data[i].searchEngines, ChatGPT).Some? ==> r[i].aggregated == Lookup(data[i].searchEngines, ChatGPT).value)
      && (Lookup(data[i].searchEngines, ChatGPT).None? ==> r[i].aggregated == ZeroStats)
  {
    seq(|data|, i requires 0 <= i < |data| =>
      var item := data[i];
      var chatGptData := Lookup(item.searchEngines, ChatGPT);
      Row(item.id, item.name, item.searchEngines, if chatGptData.Some? then chatGptData.value else ZeroStats))
  }

  /**
   * On items made by the transformer the table shows the same ChatGPT
   * figures the transformer chose, and zeros exactly where it chose another
   * engine or none.
   */
  lemma ProcessAgreesWithTransformer(response: DataTransformer.RawResponse, i: nat)
    requires i < |DataTransformer.ResultsOf(response)|
    ensures var t := DataTransformer.ResultsOf(response)[i];
      var item := DataTransformer.Transform(response)[i];
      && (Lookup(DataTransformer.RawEnginesOf(t), ChatGPT).Some? ==>
            Some(Process(DataTransformer.Transform(response))[i].aggregated) == item.aggregated)
      && (Lookup(DataTransformer.RawEnginesOf(t), ChatGPT).None? ==>
            Process(DataTransformer.Transform(response))[i].aggregated == ZeroStats)
  {
    var t := DataTransformer.ResultsOf(response)[i];
    DataTransformer.LookupConverted(DataTransformer.RawEnginesOf(t), ChatGPT);
  }

  /** `name.toLowerCase().includes(term.toLowerCase())`. */
  predicate Matches(name: string, term: string)
  {
    Text.Contains(Text.ToLower(name), Text.ToLower(term))
  }

  /** `filteredData`: everything for an empty term, else the items whose name contains it, ignoring case. */
  function Filtered(rows: seq<Row>, term: string): (r: seq<Row>)
    ensures forall x :: multiset(r)[x] == if term == "" || Matches(x.name, term) then multiset(rows)[x] else 0
  {
    if term == "" then rows
    else
      FilterMultiplicities(rows, (x: Row) => Matches(x.name, term));
      Filter(rows, (x: Row) => Matches(x.name, term))
  }

  /**
   * The filter keeps the matching items, only those, in their original order
   * (and, by the contract of `Filtered`, every copy of them).
   */
  lemma FilteredSpec(rows: seq<Row>, term: string)
    ensures term == "" ==> Filtered(rows, term) == rows
    ensures IsSubsequence(Filtered(rows, term), rows)
    ensures forall r :: r in Filtered(rows, term) <==> r in rows && (term == "" || Matches(r.name, term))
  {
    if term != "" {
      FilterIsSubsequence(rows, (r: Row) => Matches(r.name, term));
      forall r ensures r in Filtered(rows, term) <==> r in rows && Matches(r.name, term) {
        FilterMembership(rows, (r: Row) => Matches(r.name, term), r);
      }
    } else {
      SubsequenceReflexive(rows);
    }
  }

  lemma {:induction false} SubsequenceReflexive<T>(s: seq<T>)
    ensures IsSubsequence(s, s)
  {
    if s != [] {
      SubsequenceReflexive(s[1..]);
    }
  }

  /** Upper-case letters in the search term do not matter: "SEO" finds "seo tools". */
  lemma SearchIgnoresCase()
    ensures Matches("seo tools", "SEO")
  {
    assert Text.OccursAt(Text.ToLower("seo tools"), Text.ToLower("SEO"), 0);
  }

  /** `s.slice(start, end)`, negative arguments counting from the end. */
  function JsSlice<T>(s: seq<T>, start: int, end: int): seq<T>
  {
    var from, to := JsIndex(|s|, start), JsIndex(|s|, end);
    if from < to then s[from..to] else []
  }

  function Min(a: int, b: int): int { if a <= b then a else b }

  /** `paginatedData`: page `page` (1-based) of `ItemsPerPage` items. */
  function Paginated(filtered: seq<Row>, page: int): (r: seq<Row>)
    ensures page >= 1 ==>
      var start := (page - 1) * ItemsPerPage;
      && r == filtered[Min(start, |filtered|)..Min(start + ItemsPerPage, |filtered|)]
      && |r| <= ItemsPerPage
      && (start >= |filtered| ==> r == [])
  {
    var startIndex := (page - 1) * ItemsPerPage;
    JsSlice(filtered, startIndex, startIndex + ItemsPerPage)
  }

  /** `Math.ceil(n / itemsPerPage)`; zero items give zero pages. */
  function TotalPages(n: nat): (p: nat)
    ensures (p - 1) * ItemsPerPage < n <= p * ItemsPerPage || (n == 0 && p == 0)
  {
    (n + ItemsPerPage - 1) / ItemsPerPage
  }

  /** A page is non-empty exactly when its number is between 1 and the page count. */
  lemma PageNonEmptyIff(filtered: seq<Row>, page: int)
    requires page >= 1
    ensures |Paginated(filtered, page)| > 0 <==> page <= TotalPages(|filtered|)
  {
    var n := |filtered|;
    var p := TotalPages(n);
    if page <= p {
      assert (page - 1) * ItemsPerPage <= (p - 1) * ItemsPerPage;
    } else {
      assert p * ItemsPerPage <= (page - 1) * ItemsPerPage;
    }
  }

  /** 23 matching items make 3 pages, and page 4 is empty. */
  lemma TwentyThreeItems(filtered: seq<Row>)
    requires |filtered| == 23
    ensures TotalPages(|filtered|) == 3 && Paginated(filtered, 4) == []
  {
  }

  function RowIds(rows: seq<Row>): (r: seq<string>)
    ensures |r| == |rows| && forall i :: 0 <= i < |rows| ==> r[i] == rows[i].id
  {
    seq(|rows|, i requires 0 <= i < |rows| => rows[i].id)
  }

  /** Every id on any page of any search is the id of an input item. */
  lemma PageIdsAreDataIds(data: seq<TopicKeywordData>, term: string, page: int)
    requires page >= 1
    ensures forall id :: id in RowIds(Paginated(Filtered(Process(data), term), page)) ==> id in DataTransformer.Ids(data)
  {
    var rows := Process(data);
    ProcessKeepsIds(data);
    var f := Filtered(rows, term);
    assert forall r :: r in f ==> r in rows;
    var p := Paginated(f, page);
    PaginatedWithin(f, page);
    forall id | id in RowIds(p) ensures id in RowIds(rows) {
      var k :| 0 <= k < |p| && RowIds(p)[k] == id;
      assert p[k] in p;
      var m :| 0 <= m < |rows| && rows[m] == p[k];
      assert RowIds(rows)[m] == id;
    }
  }

  /** The processed rows carry the items' ids, in order. */
  lemma ProcessKeepsIds(data: seq<TopicKeywordData>)
    ensures RowIds(Process(data)) == DataTransformer.Ids(data)
  {
  }

  /** A page holds rows of the filtered list only. */
  lemma PaginatedWithin(f: seq<Row>, page: int)
    requires page >= 1
    ensures forall r :: r in Paginated(f, page) ==> r in f
  {
    var p := Paginated(f, page);
    var from := Min((page - 1) * ItemsPerPage, |f|);
    forall r | r in p ensures r in f {
      var k :| 0 <= k < |p| && p[k] == r;
      assert p[k] == f[from + k];
    }
  }

  /** The previous selection without ids that are no longer in the data, in its order. */
  function Pruned(prev: seq<string>, dataIds: seq<string>): seq<string>
  {
    Filter(prev, (id: string) => id in dataIds)
  }

  /** The ids the top-up adds: among the first `5 - |current|` page ids, those not yet selected. */
  function TopUp(current: seq<string>, pageIds: seq<string>): seq<string>
  {
    Filter(JsSlice(pageIds, 0, AutoSelectCount - |current|), (id: string) => id !in current)
  }

  /**
   * The state update made by the selection effect: the previous ids still in
   * the data come first, in their order, and every one of them stays
   * selected; after them come, in page order, the page's first
   * `5 - |current|` ids that are not selected yet, all of them and nothing else.
   */
  function NextSelection(prev: seq<string>, dataIds: seq<string>, pageIds: seq<string>): (r: seq<string>)
    ensures var current := Pruned(prev, dataIds);
      && |current| <= |r| && r[..|current|] == current
      && (forall id :: id in prev && id in dataIds ==> id in r)
      && (forall id :: id in r ==>
            || (id in prev && id in dataIds)
            || (|current| < AutoSelectCount && id in pageIds[..Min(AutoSelectCount - |current|, |pageIds|)]))
      && (|current| < AutoSelectCount ==>
            forall id :: id in pageIds[..Min(AutoSelectCount - |current|, |pageIds|)] ==> id in r)
      && IsSubsequence(r[|current|..], pageIds)
  {
    var current := Pruned(prev, dataIds);
    PrunedMembers(prev, dataIds);
    if |current| < AutoSelectCount && |pageIds| > 0 then
      TopUpMembers(current, pageIds);
      TopUpInPageOrder(current, pageIds);
      assert (current + TopUp(current, pageIds))[|current|..] == TopUp(current, pageIds);
      current + TopUp(current, pageIds)
    else
      assert current[|current|..] == [];
      current
  }

  /** The pruned selection holds exactly the previous ids that are still data ids. */
  lemma PrunedMembers(prev: seq<string>, dataIds: seq<string>)
    ensures forall id :: id in Pruned(prev, dataIds) <==> id in prev && id in dataIds
  {
    forall id ensures id in Pruned(prev, dataIds) <==> id in prev && id in dataIds {
      FilterMembership(prev, (x: string) => x in dataIds, id);
    }
  }

  /** The top-up holds exactly the page's first free-slot ids that are not selected yet. */
  lemma TopUpMembers(current: seq<string>, pageIds: seq<string>)
    requires |current| < AutoSelectCount
    ensures forall id :: id in TopUp(current, pageIds) <==>
      id !in current && id in pageIds[..Min(AutoSelectCount - |current|, |pageIds|)]
  {
    var window := JsSlice(pageIds, 0, AutoSelectCount - |current|);
    JsSlicePrefix(pageIds, AutoSelectCount - |current|);
    forall id ensures id in TopUp(current, pageIds) <==> id !in current && id in window {
      FilterMembership(window, (id: string) => id !in current, id);
    }
  }

  /** The top-up keeps page order. */
  lemma TopUpInPageOrder(current: seq<string>, pageIds: seq<string>)
    requires |current| < AutoSelectCount
    ensures IsSubsequence(TopUp(current, pageIds), pageIds)
  {
    var p := (id: string) => id !in current;
    var k := Min(AutoSelectCount - |current|, |pageIds|);
    var window := pageIds[..k];
    JsSlicePrefix(pageIds, AutoSelectCount - |current|);
    FilterIsSubsequence(window, p);
    SubsequenceAppend(Filter(window, p), window, pageIds[k..]);
    assert window + pageIds[k..] == pageIds;
  }

  /**
   * The pruned previous selection comes first, in its order; a previously
   * selected id stays selected exactly when it is still in the data; the
   * result holds data ids only, as long as the page holds data ids.
   */
  lemma SelectionKeepsValidIds(prev: seq<string>, dataIds: seq<string>, pageIds: seq<string>)
    requires forall id :: id in pageIds ==> id in dataIds
    ensures var current := Pruned(prev, dataIds);
      var r := NextSelection(prev, dataIds, pageIds);
      && |current| <= |r| && r[..|current|] == current
      && IsSubsequence(current, prev)
      && (forall id :: id in prev ==> (id in r <==> id in dataIds))
      && forall id :: id in r ==> id in dataIds
  {
    var current := Pruned(prev, dataIds);
    var r := NextSelection(prev, dataIds, pageIds);
    FilterIsSubsequence(prev, (id: string) => id in dataIds);
    forall id | id in r ensures id in dataIds {
      if !(id in prev && id in dataIds) {
        assert id in pageIds[..Min(AutoSelectCount - |current|, |pageIds|)];
      }
    }
  }

  /** The effect introduces no duplicate ids. */
  lemma SelectionNoDuplicates(prev: seq<string>, dataIds: seq<string>, pageIds: seq<string>)
    requires NoDuplicates(prev) && NoDuplicates(pageIds)
    ensures NoDuplicates(NextSelection(prev, dataIds, pageIds))
  {
    var current := Pruned(prev, dataIds);
    FilterNoDuplicates(prev, (id: string) => id in dataIds);
    if |current| < AutoSelectCount && |pageIds| > 0 {
      var window := JsSlice(pageIds, 0, AutoSelectCount - |current|);
      var top := TopUp(current, pageIds);
      FilterNoDuplicates(window, (id: string) => id !in current);
      var r := current + top;
      forall i, j | 0 <= i < j < |r| ensures r[i] != r[j] {
        if i < |current| <= j {
          assert r[j] in top;
          FilterMembership(window, (id: string) => id !in current, r[j]);
        }
      }
    }
  }

  /**
   * A top-up happens only below five ids on a non-empty page and stops at
   * five; otherwise the pruned selection stays as it is.
   */
  lemma SelectionTopUpBound(prev: seq<string>, dataIds: seq<string>, pageIds: seq<string>)
    ensures var current := Pruned(prev, dataIds);
      var r := NextSelection(prev, dataIds, pageIds);
      && (|current| < AutoSelectCount && |pageIds| > 0 ==> |current| <= |r| <= AutoSelectCount)
      && (|current| >= AutoSelectCount || |pageIds| == 0 ==> r == current)
  {
  }

  /** Two ids still selected leave three free slots, and all three page ids fill them in order. */
  lemma TopUpFillsFreeSlots()
    ensures NextSelection(["x", "y"], ["x", "y", "a", "b", "c"], ["a", "b", "c"]) == ["x", "y", "a", "b", "c"]
  {
    var current: seq<string> := ["x", "y"];
    var page: seq<string> := ["a", "b", "c"];
    FilterKeepsAll(current, (id: string) => id in ["x", "y", "a", "b", "c"]);
    JsSlicePrefix(page, 3);
    assert page[..3] == page;
    FilterKeepsAll(page, (id: string) => id !in current);
  }

  /** With nothing selected, the first five page ids (all of them on a shorter page) are selected. */
  lemma SelectionFromNothing(dataIds: seq<string>, pageIds: seq<string>)
    ensures NextSelection([], dataIds, pageIds) == pageIds[..Min(AutoSelectCount, |pageIds|)]
  {
    var window := JsSlice(pageIds, 0, AutoSelectCount);
    JsSlicePrefix(pageIds, AutoSelectCount);
    FilterKeepsAll(window, (id: string) => id !in []);
  }

  /** `s.slice(0, a)` for a non-negative `a` is a prefix of `s`. */
  lemma JsSlicePrefix<T>(s: seq<T>, a: int)
    requires a >= 0
    ensures JsSlice(s, 0, a) == s[..Min(a, |s|)]
  {
  }

  /** Running the effect again with the same data and page changes nothing. */
  lemma SelectionIdempotent(prev: seq<string>, dataIds: seq<string>, pageIds: seq<string>)
    requires forall id :: id in pageIds ==> id in dataIds
    ensures NextSelection(NextSelection(prev, dataIds, pageIds), dataIds, pageIds) == NextSelection(prev, dataIds, pageIds)
  {
    var r := NextSelection(prev, dataIds, pageIds);
    SelectionKeepsValidIds(prev, dataIds, pageIds);
    FilterKeepsAll(r, (id: string) => id in dataIds);
    assert Pruned(r, dataIds) == r;
    if |r| < AutoSelectCount && |pageIds| > 0 {
      TopUpAlreadySelected(prev, dataIds, pageIds);
      assert r + [] == r;
    }
  }

  /** Below five ids after a top-up, the page's leading ids are all selected already. */
  lemma TopUpAlreadySelected(prev: seq<string>, dataIds: seq<string>, pageIds: seq<string>)
    requires |pageIds| > 0
    requires |NextSelection(prev, dataIds, pageIds)| < AutoSelectCount
    ensures TopUp(NextSelection(prev, dataIds, pageIds), pageIds) == []
  {
    var current := Pruned(prev, dataIds);
    var r := NextSelection(prev, dataIds, pageIds);
    assert |current| <= |r|;
    var window := JsSlice(pageIds, 0, AutoSelectCount - |current|);
    var window' := JsSlice(pageIds, 0, AutoSelectCount - |r|);
    JsSlicePrefix(pageIds, AutoSelectCount - |current|);
    JsSlicePrefix(pageIds, AutoSelectCount - |r|);
    assert r == current + Filter(window, (x: string) => x !in current);
    forall id | id in window' ensures !(id !in r) {
      var k :| 0 <= k < |window'| && window'[k] == id;
      assert window[k] == id;
      if id !in current {
        FilterMembership(window, (x: string) => x !in current, id);
      }
    }
    FilterNone(window', (x: string) => x !in r);
  }

  lemma {:induction false} FilterNone<T>(s: seq<T>, p: T -> bool)
    requires forall x :: x in s ==> !p(x)
    ensures Filter(s, p) == []
  {
    if s != [] {
      FilterNone(s[1..], p);
    }
  }

  /** `toggleItemSelection`: remove `id` (every occurrence) if selected, else append it. */
  function Toggled(selected: seq<string>, id: string): (r: seq<string>)
    ensures id in r <==> id !in selected
    ensures forall x :: x != id ==> (x in r <==> x in selected)
    ensures Filter(r, (x: string) => x != id) == Filter(selected, (x: string) => x != id)
    ensures id !in selected ==> r == selected + [id]
  {
    var others := (x: string) => x != id;
    if id in selected then
      FilterIdempotent(selected, others);
      forall x ensures x in Filter(selected, others) <==> x in selected && x != id {
        FilterMembership(selected, others, x);
      }
      Filter(selected, others)
    else
      FilterAppend(selected, [id], others);
      FilterAppend([], [], others);
      selected + [id]
  }

  /** `history.find(h => h.timepoint === t)?.appearances || 0`. */
  function AppearancesAt(history: seq<HistoryPoint>, t: string): (r: int)
    ensures (forall k :: 0 <= k < |history| ==> history[k].timepoint != t) ==> r == 0
    ensures forall k ::
      (0 <= k < |history| && history[k].timepoint == t && forall j :: 0 <= j < k ==> history[j].timepoint != t)
      ==> r == history[k].appearances
  {
    if history == [] then 0
    else if history[0].timepoint == t then history[0].appearances
    else
      var r := AppearancesAt(history[1..], t);
      assert forall k :: 1 <= k < |history| ==> history[1..][k - 1] == history[k];
      r
  }

  /** One point of the chart: a timepoint and, per selected item in table order, its name and value. */
  datatype ChartRow = ChartRow(timepoint: string, values: seq<(string, int)>)

  /** The items whose id is selected, in table order (not selection order). */
  function SelectedRows(rows: seq<Row>, selectedIds: seq<string>): seq<Row>
  {
    Filter(rows, (r: Row) => r.id in selectedIds)
  }

  /** The timepoints of an item's history. */
  function HistoryTimes(history: seq<HistoryPoint>): set<string>
  {
    if history == [] then {}
    else HistoryTimes(history[..|history| - 1]) + {history[|history| - 1].timepoint}
  }

  /** An item contributes exactly the timepoints occurring in its history. */
  lemma {:induction false} HistoryTimesMembers(history: seq<HistoryPoint>, t: string)
    ensures t in HistoryTimes(history) <==> exists k :: 0 <= k < |history| && history[k].timepoint == t
  {
    if history != [] {
      var n := |history| - 1;
      var init := history[..n];
      HistoryTimesMembers(init, t);
      if t in HistoryTimes(init) {
        var k :| 0 <= k < n && init[k].timepoint == t;
        assert history[k] == init[k];
      } else if t != history[n].timepoint {
        forall k | 0 <= k < n ensures history[k].timepoint != t {
          assert history[k] == init[k];
        }
      }
    }
  }

  /** Every timepoint in the histories of `items`. */
  function TimepointSet(items: seq<Row>): set<string>
  {
    if items == [] then {}
    else TimepointSet(items[..|items| - 1]) + HistoryTimes(items[|items| - 1].aggregated.history)
  }

  /** A timepoint is collected exactly when some item's history has it. */
  lemma {:induction false} TimepointSetMembers(items: seq<Row>, t: string)
    ensures t in TimepointSet(items) <==> exists i :: 0 <= i < |items| && t in HistoryTimes(items[i].aggregated.history)
  {
    if items != [] {
      var n := |items| - 1;
      var init := items[..n];
      TimepointSetMembers(init, t);
      if t in TimepointSet(items) {
        if t in TimepointSet(init) {
          var i :| 0 <= i < n && t in HistoryTimes(init[i].aggregated.history);
          assert init[i] == items[i];
        } else {
          assert t in HistoryTimes(items[n].aggregated.history);
        }
      } else {
        forall i | 0 <= i < n ensures t !in HistoryTimes(items[i].aggregated.history) {
          assert init[i] == items[i];
        }
      }
    }
  }

  /** The `forEach` loops that add every timepoint of the selected items to a `Set`. */
  method CollectTimepoints(items: seq<Row>) returns (allTimepoints: set<string>)
    ensures allTimepoints == TimepointSet(items)
  {
    allTimepoints := {};
    var i := 0;
    while i < |items|
      invariant 0 <= i <= |items|
      invariant allTimepoints == TimepointSet(items[..i])
    {
      var history := items[i].aggregated.history;
      var k := 0;
      while k < |history|
        invariant 0 <= k <= |history|
        invariant allTimepoints == TimepointSet(items[..i]) + HistoryTimes(history[..k])
      {
        allTimepoints := allTimepoints + {history[k].timepoint};
        assert history[..k + 1][..k] == history[..k];
        k := k + 1;
      }
      assert history[..k] == history;
      assert items[..i + 1][..i] == items[..i];
      i := i + 1;
    }
    assert items[..i] == items;
  }

  /** `Array.from(set).sort()`: the elements in ascending order. */
  method SortTimepoints(s: set<string>) returns (sorted: seq<string>)
    ensures Text.StrictlySorted(sorted)
    ensures forall t :: t in sorted <==> t in s
  {
    sorted := [];
    var rest := s;
    while rest != {}
      invariant rest <= s
      invariant Text.StrictlySorted(sorted)
      invariant forall t :: t in sorted <==> t in s - rest
      decreases rest
    {
      var t :| t in rest;
      sorted := Text.InsertSorted(sorted, t);
      rest := rest - {t};
    }
  }

  /** A chart row for `t` lists every item's name with its appearances at `t`, or 0. */
  ghost predicate IsRowFor(row: ChartRow, items: seq<Row>)
  {
    && |row.values| == |items|
    && forall j :: 0 <= j < |items| ==>
         row.values[j] == (items[j].name, AppearancesAt(items[j].aggregated.history, row.timepoint))
  }

  /** The `forEach` that fills one row object. */
  method BuildRow(items: seq<Row>, t: string) returns (row: ChartRow)
    ensures row.timepoint == t && IsRowFor(row, items)
  {
    var values: seq<(string, int)> := [];
    var j := 0;
    while j < |items|
      invariant 0 <= j <= |items|
      invariant |values| == j
      invariant forall m :: 0 <= m < j ==> values[m] == (items[m].name, AppearancesAt(items[m].aggregated.history, t))
    {
      values := values + [(items[j].name, AppearancesAt(items[j].aggregated.history, t))];
      j := j + 1;
    }
    row := ChartRow(t, values);
  }

  function Timepoints(chart: seq<ChartRow>): (r: seq<string>)
    ensures |r| == |chart| && forall k :: 0 <= k < |chart| ==> r[k] == chart[k].timepoint
  {
    seq(|chart|, k requires 0 <= k < |chart| => chart[k].timepoint)
  }

  /**
   * `chartData`: nothing without a selection; otherwise one row per distinct
   * timepoint of the selected items, in ascending order, each giving every
   * selected item's first matching appearances or 0.
   */
  method ChartData(rows: seq<Row>, selectedIds: seq<string>) returns (chart: seq<ChartRow>)
    ensures selectedIds == [] ==> chart == []
    ensures selectedIds != [] ==> Text.StrictlySorted(Timepoints(chart))
    ensures selectedIds != [] ==> forall t :: t in Timepoints(chart) <==>
      exists i :: 0 <= i < |SelectedRows(rows, selectedIds)|
        && t in HistoryTimes(SelectedRows(rows, selectedIds)[i].aggregated.history)
    ensures forall k :: 0 <= k < |chart| ==> IsRowFor(chart[k], SelectedRows(rows, selectedIds))
  {
    if |selectedIds| == 0 {
      return [];
    }
    var selectedItems := SelectedRows(rows, selectedIds);
    var allTimepoints := CollectTimepoints(selectedItems);
    var sortedTimepoints := SortTimepoints(allTimepoints);
    chart := [];
    var k := 0;
    while k < |sortedTimepoints|
      invariant 0 <= k <= |sortedTimepoints|
      invariant Timepoints(chart) == sortedTimepoints[..k]
      invariant forall m :: 0 <= m < k ==> IsRowFor(chart[m], selectedItems)
    {
      var row := BuildRow(selectedItems, sortedTimepoints[k]);
      chart := chart + [row];
      k := k + 1;
    }
    assert sortedTimepoints[..k] == sortedTimepoints;
    forall t ensures t in allTimepoints <==>
      exists i :: 0 <= i < |selectedItems| && t in HistoryTimes(selectedItems[i].aggregated.history)
    {
      TimepointSetMembers(selectedItems, t);
    }
  }

  /** The fixed line colours. */
  const Palette: seq<string> := [
    "#3B82F6", "#10B981", "#F59E0B", "#EF4444", "#8B5CF6",
    "#EC4899", "#14B8A6", "#F97316", "#6366F1", "#06B6D4"]

  /** `getItemColor`: colours cycle through the palette by index. */
  function ItemColor(index: nat): (c: string)
    ensures c in Palette
    ensures index < |Palette| ==> c == Palette[index]
  {
    var k := index % |Palette|;
    assert index < |Palette| ==> k == index;
    Palette[k]
  }

  /** The colours repeat every ten lines. */
  lemma ColorsCycle(i: nat)
    ensures ItemColor(i + |Palette|) == ItemColor(i)
  {
    assert (i + |Palette|) % |Palette| == i % |Palette|;
  }

  /** The first ten lines get ten different colours. */
  lemma PaletteDistinct()
    ensures NoDuplicates(Palette)
  {
  }

  /**
   * The component's state: search text, selected ids (order matters for
   * nothing but the chart's membership) and the 1-based current page.
   */
  class PerformanceTable {
    var searchTerm: string
    var selectedIds: seq<string>
    var currentPage: int

    ghost predicate Valid()
      reads this
    {
      currentPage >= 1
    }

    constructor ()
      ensures Valid()
      ensures searchTerm == "" && selectedIds == [] && currentPage == 1
    {
      searchTerm := "";
      selectedIds := [];
      currentPage := 1;
    }

    function FilteredData(data: seq<TopicKeywordData>): seq<Row>
      reads this
    {
      Filtered(Process(data), searchTerm)
    }

    function PaginatedData(data: seq<TopicKeywordData>): seq<Row>
      reads this
    {
      Paginated(FilteredData(data), currentPage)
    }

    function PageCount(data: seq<TopicKeywordData>): nat
      reads this
    {
      TotalPages(|FilteredData(data)|)
    }

    /** The selection effect, run whenever the data or the current page changes. */
    method SyncSelection(data: seq<TopicKeywordData>)
      requires Valid()
      modifies this`selectedIds
      ensures Valid()
      ensures selectedIds == NextSelection(old(selectedIds), DataTransformer.Ids(data), RowIds(PaginatedData(data)))
      ensures forall id :: id in selectedIds ==> id in DataTransformer.Ids(data)
      ensures NoDuplicates(old(selectedIds)) && NoDuplicates(DataTransformer.Ids(data)) ==> NoDuplicates(selectedIds)
    {
      var validIds := DataTransformer.Ids(data);
      var pageIds := RowIds(PaginatedData(data));
      PageIdsAreDataIds(data, searchTerm, currentPage);
      SelectionKeepsValidIds(selectedIds, validIds, pageIds);
      if NoDuplicates(selectedIds) && NoDuplicates(validIds) {
        PageIdsDistinct(data, searchTerm, currentPage);
        SelectionNoDuplicates(selectedIds, validIds, pageIds);
      }
      selectedIds := NextSelection(selectedIds, validIds, pageIds);
    }

    method ToggleItemSelection(id: string)
      modifies this`selectedIds
      ensures selectedIds == Toggled(old(selectedIds), id)
    {
      selectedIds := Toggled(selectedIds, id);
    }

    /** Typing in the search box also returns to the first page. */
    method ChangeSearch(term: string)
      modifies this`searchTerm, this`currentPage
      ensures Valid()
      ensures searchTerm == term && currentPage == 1
    {
      searchTerm := term;
      currentPage := 1;
    }

    method PreviousPage()
      requires Valid()
      modifies this`currentPage
      ensures Valid()
      ensures currentPage == if old(currentPage) - 1 >= 1 then old(currentPage) - 1 else 1
    {
      currentPage := if currentPage - 1 >= 1 then currentPage - 1 else 1;
    }

    /** The next-page button, which is shown only when there is more than one page. */
    method NextPage(data: seq<TopicKeywordData>)
      requires Valid() && PageCount(data) > 1
      modifies this`currentPage
      ensures Valid()
      ensures currentPage == Min(old(PageCount(data)), old(currentPage) + 1)
      ensures currentPage <= PageCount(data)
    {
      currentPage := Min(PageCount(data), currentPage + 1);
    }
  }

  /** Distinct data ids give distinct ids on every page. */
  lemma PageIdsDistinct(data: seq<TopicKeywordData>, term: string, page: int)
    requires page >= 1
    requires NoDuplicates(DataTransformer.Ids(data))
    ensures NoDuplicates(RowIds(Paginated(Filtered(Process(data), term), page)))
  {
    var rows := Process(data);
    ProcessKeepsIds(data);
    var f := Filtered(rows, term);
    if term != "" {
      FilterRowIdsDistinct(rows, (r: Row) => Matches(r.name, term));
    }
    PageOfDistinctIdsIsDistinct(f, page);
  }

  /** A page is a slice, so it keeps the distinctness of the ids it slices. */
  lemma PageOfDistinctIdsIsDistinct(f: seq<Row>, page: int)
    requires page >= 1
    requires NoDuplicates(RowIds(f))
    ensures NoDuplicates(RowIds(Paginated(f, page)))
  {
    var ids := RowIds(f);
    var from := Min((page - 1) * ItemsPerPage, |f|);
    var p := Paginated(f, page);
    assert forall k :: 0 <= k < |p| ==> p[k] == f[from + k];
    forall i, j | 0 <= i < j < |p| ensures RowIds(p)[i] != RowIds(p)[j] {
      assert RowIds(p)[i] == ids[from + i] && RowIds(p)[j] == ids[from + j];
    }
  }

  lemma {:induction false} FilterRowIdsDistinct(rows: seq<Row>, p: Row -> bool)
    requires NoDuplicates(RowIds(rows))
    ensures NoDuplicates(RowIds(Filter(rows, p)))
  {
    if rows != [] {
      var tail := rows[1..];
      assert RowIds(rows) == [rows[0].id] + RowIds(tail);
      NoDuplicatesCons(rows[0].id, RowIds(tail));
      FilterRowIdsDistinct(tail, p);
      if p(rows[0]) {
        var kept := Filter(tail, p);
        assert RowIds(Filter(rows, p)) == [rows[0].id] + RowIds(kept);
        RowIdsWithin(kept, tail);
        NoDuplicatesCons(rows[0].id, RowIds(kept));
      }
    }
  }

  /** The ids of rows drawn from `b` are ids of `b`. */
  lemma RowIdsWithin(a: seq<Row>, b: seq<Row>)
    requires forall r :: r in a ==> r in b
    ensures forall id :: id in RowIds(a) ==> id in RowIds(b)
  {
    forall id | id in RowIds(a) ensures id in RowIds(b) {
      var k :| 0 <= k < |a| && RowIds(a)[k] == id;
      assert a[k] in b;
      var m :| 0 <= m < |b| && b[m] == a[k];
      assert RowIds(b)[m] == id;
    }
  }
}

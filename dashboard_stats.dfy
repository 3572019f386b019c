/**
 * The dashboard above the keyword table: the top-eight volume chart with its
 * bar colours and tick labels, the count of high-competition keywords, and the
 * grounding-source panel. Everything here is computed from the props without
 * changing them.
 */
module DashboardStats {
  import opened Base
  import opened Types

  /** Number of bars in the chart. */
  const ChartSize: nat := 8

  /** Number of grounding sources listed by title. */
  const SourcesListed: nat := 3

  /** Tick labels longer than this are cut and given an ellipsis. */
  const TickLength: nat := 15

  const Ellipsis := "..."

  const HighBar := "#f87171"
  const MediumBar := "#facc15"
  const LowBar := "#4ade80"
  const DefaultBar := "#94a3b8"

  // ===========================================================================
  // Chart data: a copy sorted by volume, descending, cut to eight entries

  /** Every record carries a number in `searchVolume`, as its declared type says. */
  predicate HasVolumes(data: seq<KeywordData>)
  {
    forall i :: 0 <= i < |data| ==> data[i].searchVolume.Finite?
  }

  /** The sort key. */
  function Volume(k: KeywordData): real
  {
    OrZero(k.searchVolume)
  }

  predicate SortedDesc(s: seq<KeywordData>)
  {
    forall i, j :: 0 <= i < j < |s| ==> Volume(s[i]) >= Volume(s[j])
  }

  /**
   * Places `k` after every entry of `s` whose volume is at least its own, so
   * that among equal volumes the entry inserted earlier stays first.
   */
  function Insert(k: KeywordData, s: seq<KeywordData>): (r: seq<KeywordData>)
    ensures multiset(r) == multiset(s) + multiset{k}
    ensures |r| == |s| + 1
    ensures r[0] == k || (s != [] && r[0] == s[0])
  {
    if s == [] then [k]
    else if Volume(s[0]) >= Volume(k) then
      assert s == [s[0]] + s[1..];
      [s[0]] + Insert(k, s[1..])
    else [k] + s
  }

  /**
   * The comparator `b.searchVolume - a.searchVolume` under a stable sort: the
   * entries by descending volume, ties in input order.
   */
  function SortByVolume(data: seq<KeywordData>): (r: seq<KeywordData>)
    ensures multiset(r) == multiset(data)
    ensures |r| == |data|
  {
    if data == [] then []
    else
      assert data == data[..|data| - 1] + [data[|data| - 1]];
      Insert(data[|data| - 1], SortByVolume(data[..|data| - 1]))
  }

  /** Inserting into a descending sequence keeps it descending. */
  lemma {:induction false} InsertSorted(k: KeywordData, s: seq<KeywordData>)
    requires SortedDesc(s)
    ensures SortedDesc(Insert(k, s))
  {
    if s != [] && Volume(s[0]) >= Volume(k) {
      var tail := Insert(k, s[1..]);
      InsertSorted(k, s[1..]);
      forall j | 0 <= j < |tail| ensures Volume(s[0]) >= Volume(tail[j]) {
        assert tail[j] in multiset(tail);
        assert tail[j] in multiset(s[1..]) || tail[j] == k;
        if tail[j] != k {
          var m :| 0 <= m < |s[1..]| && s[1..][m] == tail[j];
          assert s[m + 1] == tail[j];
        }
      }
    }
  }

  /** The sorted copy is in descending order of volume. */
  lemma {:induction false} SortByVolumeSorted(data: seq<KeywordData>)
    ensures SortedDesc(SortByVolume(data))
  {
    if data != [] {
      SortByVolumeSorted(data[..|data| - 1]);
      InsertSorted(data[|data| - 1], SortByVolume(data[..|data| - 1]));
    }
  }

  /** The bars of the chart: the eight largest volumes, largest first. */
  function ChartData(data: seq<KeywordData>): (chart: seq<KeywordData>)
    requires HasVolumes(data)
    ensures |chart| == if |data| < ChartSize then |data| else ChartSize
  {
    var sorted := SortByVolume(data);
    if |sorted| < ChartSize then sorted else sorted[..ChartSize]
  }

  /**
   * The chart is a descending selection of min(8, n) entries of the data, and
   * no entry left out has a larger volume than an entry shown.
   */
  lemma ChartDataTop(data: seq<KeywordData>)
    requires HasVolumes(data)
    ensures SortedDesc(ChartData(data))
    ensures multiset(ChartData(data)) <= multiset(data)
    ensures forall x, y :: x in ChartData(data) && y in multiset(data) - multiset(ChartData(data))
              ==> Volume(x) >= Volume(y)
  {
    var sorted := SortByVolume(data);
    SortByVolumeSorted(data);
    var chart := ChartData(data);
    var rest := sorted[|chart|..];
    assert sorted == chart + rest;
    assert multiset(data) - multiset(chart) == multiset(rest);
    SortedSplit(sorted, |chart|);
    forall y | y in multiset(rest) ensures y in rest {
    }
  }

  /** In a descending sequence every entry before a cut is at least every entry after it. */
  lemma SortedSplit(s: seq<KeywordData>, m: nat)
    requires SortedDesc(s) && m <= |s|
    ensures SortedDesc(s[..m])
    ensures forall x, y :: x in s[..m] && y in s[m..] ==> Volume(x) >= Volume(y)
  {
    forall x, y | x in s[..m] && y in s[m..] ensures Volume(x) >= Volume(y) {
      var i :| 0 <= i < m && s[..m][i] == x;
      var j :| 0 <= j < |s| - m && s[m..][j] == y;
      assert s[i] == x && s[m + j] == y;
    }
  }

  // ===========================================================================
  // Bars, ticks and the summary count

  /** getBarColor: high, medium and low in any casing; grey otherwise. */
  function BarColor(competition: string): (color: string)
    ensures color in {HighBar, MediumBar, LowBar, DefaultBar}
  {
    var lower := ToLower(competition);
    if lower == "high" then HighBar
    else if lower == "medium" then MediumBar
    else if lower == "low" then LowBar
    else DefaultBar
  }

  /** The bar colour does not depend on the casing of the value. */
  lemma BarColorCaseInsensitive(competition: string)
    ensures BarColor(ToLower(competition)) == BarColor(competition)
  {
    ToLowerIdempotent(competition);
  }

  /** Each declared competition level gets its own bar colour. */
  lemma BarColorLabels()
    ensures BarColor(CompetitionLabel(High)) == HighBar
    ensures BarColor(CompetitionLabel(Medium)) == MediumBar
    ensures BarColor(CompetitionLabel(Low)) == LowBar
  {
    LowersTo(CompetitionLabel(High), "high");
    LowersTo(CompetitionLabel(Medium), "medium");
    LowersTo(CompetitionLabel(Low), "low");
  }

  /** Only the casings of the three levels are coloured; everything else is grey. */
  lemma BarColorDefault(competition: string)
    ensures BarColor(competition) == DefaultBar <==>
              ToLower(competition) != "high" && ToLower(competition) != "medium" && ToLower(competition) != "low"
  {
  }

  /** The tick formatter: at most 15 characters, then "..." when anything was cut. */
  function TickLabel(value: string): (r: string)
    ensures |value| <= TickLength ==> r == value
    ensures |value| > TickLength ==> |r| == TickLength + |Ellipsis|
    ensures |value| > TickLength ==> r[..TickLength] == value[..TickLength] && r[TickLength..] == Ellipsis
  {
    if |value| > TickLength then Substring(value, 0, TickLength) + Ellipsis else value
  }

  /** Formatting a tick label a second time changes nothing. */
  lemma TickLabelIdempotent(value: string)
    ensures TickLabel(TickLabel(value)) == TickLabel(value)
  {
    if |value| > TickLength {
      var once := TickLabel(value);
      assert once[..TickLength] + Ellipsis == once;
    }
  }

  /** The entries whose competition is exactly "High", in order. */
  function HighEntries(data: seq<KeywordData>): (r: seq<KeywordData>)
    ensures |r| <= |data|
    ensures forall k :: k in r ==> k in data && k.competition == "High"
  {
    if data == [] then []
    else
      var last := data[|data| - 1];
      HighEntries(data[..|data| - 1]) + (if last.competition == "High" then [last] else [])
  }

  /** highCompCount: the number of entries whose competition is exactly "High". */
  function HighCompCount(data: seq<KeywordData>): (n: nat)
    ensures n <= |data|
  {
    |HighEntries(data)|
  }

  /** Every entry marked exactly "High" is counted. */
  lemma {:induction false} HighEntriesComplete(data: seq<KeywordData>)
    ensures forall k :: k in data && k.competition == "High" ==> k in HighEntries(data)
  {
    if data != [] {
      var init := data[..|data| - 1];
      HighEntriesComplete(init);
      assert data == init + [data[|data| - 1]];
    }
  }

  /** The indices of the entries whose competition is exactly "High". */
  function HighIndices(data: seq<KeywordData>): set<int>
  {
    set i | 0 <= i < |data| && data[i].competition == "High"
  }

  /** The count is the number of positions marked "High": repeated entries are counted once each. */
  lemma {:induction false} HighCompCountIndices(data: seq<KeywordData>)
    ensures HighCompCount(data) == |HighIndices(data)|
  {
    if data != [] {
      var n := |data| - 1;
      var init := data[..n];
      HighCompCountIndices(init);
      var extra: set<int> := if data[n].competition == "High" then {n} else {};
      assert HighIndices(data) == HighIndices(init) + extra by {
        forall i ensures i in HighIndices(data) <==> i in HighIndices(init) + extra {
          if 0 <= i < n {
            assert init[i] == data[i];
          }
        }
      }
      assert n !in HighIndices(init);
    }
  }

  /** The count reaches the number of entries exactly when every entry is marked "High". */
  lemma {:induction false} HighCompCountAll(data: seq<KeywordData>)
    ensures HighCompCount(data) == |data| <==> forall i :: 0 <= i < |data| ==> data[i].competition == "High"
  {
    if data != [] {
      var init := data[..|data| - 1];
      HighCompCountAll(init);
      assert forall i :: 0 <= i < |init| ==> init[i] == data[i];
    }
  }

  /**
   * The count compares case-sensitively while the bar colour does not: an entry
   * marked "high" in any other casing is drawn red but not counted.
   */
  lemma HighCountIsCaseSensitive(k: KeywordData)
    requires k.competition != "High" && ToLower(k.competition) == "high"
    ensures HighCompCount([k]) == 0
    ensures BarColor(k.competition) == HighBar
  {
    assert [k][..0] == [];
  }

  // ===========================================================================
  // Sources panel and the whole view

  /** The sources panel: the first three sources and the number not listed, when any. */
  datatype SourcesPanel = SourcesPanel(listed: seq<GroundingSource>, others: Option<nat>)

  function SourcesPanelFor(sources: seq<GroundingSource>): (r: Option<SourcesPanel>)
    ensures r.None? <==> sources == []
    ensures r.Some? ==> r.value.listed <= sources && |r.value.listed| <= SourcesListed
    ensures r.Some? ==> (r.value.others.Some? <==> |sources| > SourcesListed)
    ensures r.Some? && |sources| > SourcesListed ==>
              r.value.listed == sources[..SourcesListed] && r.value.others == Some(|sources| - SourcesListed)
    ensures r.Some? && |sources| <= SourcesListed ==> r.value.listed == sources
  {
    if sources == [] then None
    else if |sources| > SourcesListed then
      Some(SourcesPanel(sources[..SourcesListed], Some(|sources| - SourcesListed)))
    else Some(SourcesPanel(sources, None))
  }

  /** The panel accounts for every source: listed ones plus the "others" count. */
  lemma SourcesPanelAccounts(sources: seq<GroundingSource>)
    requires sources != []
    ensures var p := SourcesPanelFor(sources).value;
            |p.listed| + (if p.others.Some? then p.others.value else 0) == |sources|
  {
  }

  /** What the dashboard shows. */
  datatype Dashboard = Dashboard(
    chart: seq<KeywordData>,
    ticks: seq<string>,
    barColors: seq<string>,
    highCompCount: nat,
    total: nat,
    sources: Option<SourcesPanel>)

  /** The component: nothing at all for empty data. */
  function Render(data: seq<KeywordData>, sources: seq<GroundingSource>): (r: Option<Dashboard>)
    requires HasVolumes(data)
    ensures r.None? <==> data == []
    ensures r.Some? ==> |r.value.ticks| == |r.value.chart| == |r.value.barColors| <= ChartSize
    ensures r.Some? ==> r.value.highCompCount <= r.value.total == |data|
    ensures r.Some? ==> r.value.chart == ChartData(data) && r.value.highCompCount == HighCompCount(data)
                        && r.value.sources == SourcesPanelFor(sources)
    ensures r.Some? ==> forall i :: 0 <= i < |r.value.chart| ==>
              r.value.ticks[i] == TickLabel(r.value.chart[i].keyword)
              && r.value.barColors[i] == BarColor(r.value.chart[i].competition)
  {
    if data == [] then None
    else
      var chart := ChartData(data);
      Some(Dashboard(
        chart,
        seq(|chart|, i requires 0 <= i < |chart| => TickLabel(chart[i].keyword)),
        seq(|chart|, i requires 0 <= i < |chart| => BarColor(chart[i].competition)),
        HighCompCount(data),
        |data|,
        SourcesPanelFor(sources)))
  }
}

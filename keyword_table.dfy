/**
 * The keyword table: tier bucketing of the result rows, the CSV export text,
 * the clipboard text, and the competition colour and volume trend classifiers.
 *
 * The table's `data` prop may be missing or hold null entries, so it is an
 * `Option` of a sequence of `Option`s. Number-to-text conversion (JavaScript's
 * `String(n)`) is a parameter `numText`.
 */
module KeywordTable {
  import opened Base
  import opened Types

  // ===========================================================================
  // Tier bucketing

  /**
   * The bucket a tier string falls in: its lower-cased form is searched for
   * "tier 1", then "tier 2"; everything else, "tier 3", "long-tail", empty or
   * unrecognised, is long-tail.
   */
  function ClassifyTier(tier: string): Tier
  {
    var tierValue := ToLower(tier);
    if Contains(tierValue, "tier 1") then Tier1
    else if Contains(tierValue, "tier 2") then Tier2
    else if Contains(tierValue, "tier 3") || Contains(tierValue, "long-tail") then Tier3
    else Tier3
  }

  /** The classifier depends only on which of the two markers occur, in that order of precedence. */
  lemma ClassifyTierCases(tier: string)
    ensures ClassifyTier(tier) == Tier1 <==> Contains(ToLower(tier), "tier 1")
    ensures ClassifyTier(tier) == Tier2 <==> !Contains(ToLower(tier), "tier 1") && Contains(ToLower(tier), "tier 2")
    ensures ClassifyTier(tier) == Tier3 <==> !Contains(ToLower(tier), "tier 1") && !Contains(ToLower(tier), "tier 2")
  {
  }

  /** The declared tier labels are bucketed under their own tier. */
  lemma ClassifyTierLabel(t: Tier)
    ensures ClassifyTier(TierLabel(t)) == t
  {
    match t
    case Tier1 => ClassifyHeadLabel();
    case Tier2 => ClassifyMiddleLabel();
    case Tier3 => ClassifyLongTailLabel();
  }

  lemma ClassifyHeadLabel()
    ensures ClassifyTier(TierLabel(Tier1)) == Tier1
  {
    ClassifyMarked(TierLabel(Tier1), "tier 1");
  }

  lemma ClassifyMiddleLabel()
    ensures ClassifyTier(TierLabel(Tier2)) == Tier2
  {
    LabelLacksHeadMarker(Tier2);
    MiddleLabelMarked();
  }

  lemma ClassifyLongTailLabel()
    ensures ClassifyTier(TierLabel(Tier3)) == Tier3
  {
    LabelLacksHeadMarker(Tier3);
    LongTailLabelLacksMiddleMarker();
  }

  lemma LabelLacksHeadMarker(t: Tier)
    requires t != Tier1
    ensures !Contains(ToLower(TierLabel(t)), "tier 1")
  {
    LacksMarker(TierLabel(t), "tier 1", 5);
  }

  lemma MiddleLabelMarked()
    ensures Contains(ToLower(TierLabel(Tier2)), "tier 2")
  {
    ClassifyMarked(TierLabel(Tier2), "tier 2");
  }

  lemma LongTailLabelLacksMiddleMarker()
    ensures !Contains(ToLower(TierLabel(Tier3)), "tier 2")
  {
    LacksMarker(TierLabel(Tier3), "tier 2", 5);
  }

  /** A tier string whose lower-cased form starts with `marker` contains it. */
  lemma ClassifyMarked(s: string, marker: string)
    requires |marker| <= |s| && forall i :: 0 <= i < |marker| ==> LowerChar(s[i]) == marker[i]
    ensures Contains(ToLower(s), marker)
  {
    var lower := ToLower(s);
    assert lower[..|marker|] == marker;
    assert OccursAt(lower, marker, 0);
  }

  /** A tier string lacking a non-letter character of `marker` does not contain `marker`, in any casing. */
  lemma LacksMarker(s: string, marker: string, k: nat)
    requires k < |marker| && !('a' <= marker[k] <= 'z')
    requires marker[k] !in s
    ensures !Contains(ToLower(s), marker)
  {
    var lower := ToLower(s);
    forall i | 0 <= i < |lower| ensures lower[i] != marker[k] {
      assert s[i] in s;
    }
    NotContainsMissingChar(lower, marker, k);
  }

  /** Any casing of a tier marker is recognised. */
  lemma ClassifyTierCaseInsensitive(tier: string)
    ensures ClassifyTier(ToLower(tier)) == ClassifyTier(tier)
  {
    ToLowerIdempotent(tier);
  }

  /** The non-null entries, in order. */
  function Present(items: seq<Option<KeywordData>>): (ks: seq<KeywordData>)
    ensures |ks| <= |items|
  {
    if items == [] then []
    else
      Present(items[..|items| - 1])
      + (match items[|items| - 1] case Some(k) => [k] case None => [])
  }

  /** The entries bucketed under `t`, in input order. */
  function Bucket(items: seq<Option<KeywordData>>, t: Tier): (ks: seq<KeywordData>)
    ensures |ks| <= |items|
  {
    if items == [] then []
    else
      Bucket(items[..|items| - 1], t)
      + (match items[|items| - 1]
         case Some(k) => if ClassifyTier(k.tier) == t then [k] else []
         case None => [])
  }

  lemma BucketSnoc(items: seq<Option<KeywordData>>, item: Option<KeywordData>, t: Tier)
    ensures Bucket(items + [item], t)
            == Bucket(items, t) + (match item case Some(k) => if ClassifyTier(k.tier) == t then [k] else []
                                                case None => [])
  {
    assert (items + [item])[..|items|] == items;
  }

  /** Every bucketed entry is a non-null input entry of that tier. */
  lemma {:induction false} BucketMembers(items: seq<Option<KeywordData>>, t: Tier)
    ensures forall k :: k in Bucket(items, t) ==> Some(k) in items && ClassifyTier(k.tier) == t
  {
    if items != [] {
      var init := items[..|items| - 1];
      BucketMembers(init, t);
      assert forall x :: x in init ==> x in items;
    }
  }

  /**
   * The three buckets partition the non-null entries: every one lands in
   * exactly one bucket, so the bucket sizes add up to their number.
   */
  lemma {:induction false} BucketsPartition(items: seq<Option<KeywordData>>)
    ensures multiset(Bucket(items, Tier1)) + multiset(Bucket(items, Tier2)) + multiset(Bucket(items, Tier3))
            == multiset(Present(items))
    ensures |Bucket(items, Tier1)| + |Bucket(items, Tier2)| + |Bucket(items, Tier3)| == |Present(items)|
  {
    if items != [] {
      BucketsPartition(items[..|items| - 1]);
    }
    assert |multiset(Present(items))| == |Present(items)|;
  }

  /**
   * groupedData: entries are pushed one by one into three buckets; a missing
   * list gives three empty buckets and a null entry is skipped.
   */
  method GroupByTier(data: Option<seq<Option<KeywordData>>>)
    returns (head: seq<KeywordData>, middle: seq<KeywordData>, longTail: seq<KeywordData>)
    ensures data.None? ==> head == [] && middle == [] && longTail == []
    ensures data.Some? ==> head == Bucket(data.value, Tier1)
                           && middle == Bucket(data.value, Tier2)
                           && longTail == Bucket(data.value, Tier3)
  {
    head, middle, longTail := [], [], [];
    if data.None? {
      return;
    }
    var items := data.value;
    for i := 0 to |items|
      invariant head == Bucket(items[..i], Tier1)
      invariant middle == Bucket(items[..i], Tier2)
      invariant longTail == Bucket(items[..i], Tier3)
    {
      assert items[..i + 1] == items[..i] + [items[i]];
      BucketSnoc(items[..i], items[i], Tier1);
      BucketSnoc(items[..i], items[i], Tier2);
      BucketSnoc(items[..i], items[i], Tier3);
      match items[i] {
        case None =>
        case Some(item) =>
          var tierValue := ToLower(item.tier);
          if Contains(tierValue, "tier 1") {
            head := head + [item];
          } else if Contains(tierValue, "tier 2") {
            middle := middle + [item];
          } else if Contains(tierValue, "tier 3") || Contains(tierValue, "long-tail") {
            longTail := longTail + [item];
          } else {
            longTail := longTail + [item];
          }
      }
    }
    assert items[..|items|] == items;
  }

  // ===========================================================================
  // CSV export

  const CsvPrefix := "data:text/csv;charset=utf-8,"
  const CsvHeaders := ["层级 (Tier)", "关键词 (Keyword)", "搜索量 (Volume)", "竞争度 (Competition)", "CPC", "意图 (Intent)"]
  const NotAvailable := "N/A"

  /** The six cells of an entry's row: missing text becomes "N/A", a missing number 0, the keyword is quoted. */
  function CsvCells(k: KeywordData, numText: real -> string): (cells: seq<string>)
    ensures |cells| == |CsvHeaders|
    ensures k.tier == "" ==> cells[0] == NotAvailable
    ensures k.tier != "" ==> cells[0] == k.tier
    ensures k.competition == "" ==> cells[3] == NotAvailable
    ensures k.competition != "" ==> cells[3] == k.competition
    ensures k.intent == "" ==> cells[5] == NotAvailable
    ensures k.intent != "" ==> cells[5] == k.intent
    ensures k.searchVolume.Absent? ==> cells[2] == numText(0.0)
    ensures k.searchVolume.Finite? ==> cells[2] == numText(k.searchVolume.value)
    ensures k.cpc.Absent? ==> cells[4] == numText(0.0)
    ensures k.cpc.Finite? ==> cells[4] == numText(k.cpc.value)
    ensures cells[1] == ['"'] + k.keyword + ['"']
  {
    [OrElse(k.tier, NotAvailable),
     "\"" + k.keyword + "\"",
     numText(OrZero(k.searchVolume)),
     OrElse(k.competition, NotAvailable),
     numText(OrZero(k.cpc)),
     OrElse(k.intent, NotAvailable)]
  }

  /** The row's line: the six cells joined by commas, the tier cell first. */
  function CsvRow(k: KeywordData, numText: real -> string): (row: string)
    ensures |CsvCells(k, numText)[0]| <= |row| && row[..|CsvCells(k, numText)[0]|] == CsvCells(k, numText)[0]
  {
    Join(CsvCells(k, numText), ",")
  }

  function CsvRows(ks: seq<KeywordData>, numText: real -> string): (rows: seq<string>)
    ensures |rows| == |ks|
    ensures forall i :: 0 <= i < |ks| ==> rows[i] == CsvRow(ks[i], numText)
  {
    if ks == [] then [] else [CsvRow(ks[0], numText)] + CsvRows(ks[1..], numText)
  }

  /**
   * downloadCSV's text: nothing for a missing or empty list, otherwise the
   * data-URL prefix and the header line followed by one line per non-null entry.
   */
  function CsvText(data: Option<seq<Option<KeywordData>>>, numText: real -> string): (text: Option<string>)
    ensures text.None? <==> data.None? || data.value == []
  {
    match data
    case None => None
    case Some(items) =>
      if items == [] then None
      else Some(CsvPrefix + Join([Join(CsvHeaders, ",")] + CsvRows(Present(items), numText), "\n"))
  }

  lemma HeaderHasNoNewline()
    ensures '\n' !in Join(CsvHeaders, ",")
  {
    forall i | 0 <= i < |CsvHeaders| ensures '\n' !in CsvHeaders[i] { }
    JoinAbsent(CsvHeaders, ",", '\n');
  }

  /** A joined line contains a character only when one of its cells or the separator does. */
  lemma {:induction false} JoinAbsent(parts: seq<string>, sep: string, c: char)
    requires c !in sep
    requires forall i :: 0 <= i < |parts| ==> c !in parts[i]
    ensures c !in Join(parts, sep)
  {
    if |parts| > 1 {
      JoinAbsent(parts[1..], sep, c);
    }
  }

  /** No newline in any text field of an entry nor in any number's text. */
  predicate SingleLine(k: KeywordData, numText: real -> string)
  {
    '\n' !in k.keyword && '\n' !in k.tier && '\n' !in k.competition && '\n' !in k.intent
    && '\n' !in numText(OrZero(k.searchVolume)) && '\n' !in numText(OrZero(k.cpc))
  }

  lemma CsvRowSingleLine(k: KeywordData, numText: real -> string)
    requires SingleLine(k, numText)
    ensures '\n' !in CsvRow(k, numText)
  {
    var cells := CsvCells(k, numText);
    assert '\n' !in NotAvailable;
    assert '\n' !in cells[1] by {
      assert cells[1] == ['"'] + k.keyword + ['"'];
    }
    JoinAbsent(cells, ",", '\n');
  }

  /**
   * With single-line fields, the exported text after its prefix splits into
   * exactly the header line and one row per non-null entry, in input order.
   */
  lemma CsvLines(items: seq<Option<KeywordData>>, numText: real -> string)
    requires items != []
    requires forall k :: Some(k) in items ==> SingleLine(k, numText)
    ensures CsvText(Some(items), numText).Some?
    ensures var text := CsvText(Some(items), numText).value;
      |CsvPrefix| <= |text| && text[..|CsvPrefix|] == CsvPrefix
      && Split(text[|CsvPrefix|..], '\n') == [Join(CsvHeaders, ",")] + CsvRows(Present(items), numText)
    ensures |Split(CsvText(Some(items), numText).value[|CsvPrefix|..], '\n')| == 1 + |Present(items)|
  {
    var present := Present(items);
    PresentMembers(items);
    var lines := [Join(CsvHeaders, ",")] + CsvRows(present, numText);
    HeaderHasNoNewline();
    forall i | 0 <= i < |lines| ensures '\n' !in lines[i] {
      if i > 0 {
        assert lines[i] == CsvRow(present[i - 1], numText);
        assert present[i - 1] in present;
        CsvRowSingleLine(present[i - 1], numText);
      }
    }
    SplitJoin(lines, '\n');
    var text := CsvPrefix + Join(lines, "\n");
    assert text[|CsvPrefix|..] == Join(lines, "\n");
  }

  /** The non-null entries are exactly the entries present in the input. */
  lemma {:induction false} PresentMembers(items: seq<Option<KeywordData>>)
    ensures forall k :: k in Present(items) ==> Some(k) in items
  {
    if items != [] {
      var init := items[..|items| - 1];
      PresentMembers(init);
      assert forall x :: x in init ==> x in items;
    }
  }

  // ===========================================================================
  // Clipboard

  /** One clipboard line: the keyword and its tier, "N/A" when missing. */
  function CopyLine(k: KeywordData): (line: string)
    ensures |k.keyword| < |line| && line[..|k.keyword|] == k.keyword
    ensures line[|k.keyword|..] == " (" + OrElse(k.tier, NotAvailable) + ")"
  {
    k.keyword + " (" + OrElse(k.tier, NotAvailable) + ")"
  }

  /** The lines copied: one per non-null entry with a non-empty keyword, in order. */
  function CopyLines(items: seq<Option<KeywordData>>): (lines: seq<string>)
    ensures |lines| <= |items|
  {
    if items == [] then []
    else
      var rest := CopyLines(items[1..]);
      match items[0]
      case Some(k) => if k.keyword != "" then [CopyLine(k)] + rest else rest
      case None => rest
  }

  /** copyToClipboard's text; nothing for a missing list. */
  function ClipboardText(data: Option<seq<Option<KeywordData>>>): (text: Option<string>)
    ensures text.None? <==> data.None?
  {
    match data
    case None => None
    case Some(items) => Some(Join(CopyLines(items), "\n"))
  }

  /** Entries without a keyword, and null entries, are not copied. */
  lemma {:induction false} CopyLinesSkipBlank(items: seq<Option<KeywordData>>)
    requires forall i :: 0 <= i < |items| ==> items[i].None? || items[i].value.keyword == ""
    ensures CopyLines(items) == []
    ensures ClipboardText(Some(items)) == Some("")
  {
    if items != [] {
      CopyLinesSkipBlank(items[1..]);
    }
  }

  /** Each copied line begins with its keyword, which is never empty. */
  lemma {:induction false} CopyLinesStartWithKeyword(items: seq<Option<KeywordData>>)
    ensures forall line :: line in CopyLines(items) ==>
      exists k :: Some(k) in items && k.keyword != "" && line == CopyLine(k)
  {
    if items != [] {
      CopyLinesStartWithKeyword(items[1..]);
      assert forall x :: x in items[1..] ==> x in items;
    }
  }

  /** A single entry is copied exactly when it is present and has a keyword. */
  lemma CopyLinesOne(item: Option<KeywordData>)
    ensures CopyLines([item]) == if item.Some? && item.value.keyword != "" then [CopyLine(item.value)] else []
  {
    assert [item][1..] == [];
  }

  /** Copying works entry by entry: the lines of two lists are the lines of each, in order. */
  lemma {:induction false} CopyLinesAppend(a: seq<Option<KeywordData>>, b: seq<Option<KeywordData>>)
    ensures CopyLines(a + b) == CopyLines(a) + CopyLines(b)
  {
    if a != [] {
      assert (a + b)[0] == a[0];
      assert (a + b)[1..] == a[1..] + b;
      CopyLinesAppend(a[1..], b);
    } else {
      assert a + b == b;
    }
  }

  /**
   * Every present entry with a keyword is copied: its line sits in the
   * clipboard lines after the lines of the entries before it.
   */
  lemma {:induction false} CopyLinesComplete(items: seq<Option<KeywordData>>, i: nat)
    requires i < |items| && items[i].Some? && items[i].value.keyword != ""
    ensures CopyLines(items) == CopyLines(items[..i]) + [CopyLine(items[i].value)] + CopyLines(items[i + 1..])
    ensures CopyLine(items[i].value) in CopyLines(items)
  {
    var before, item, after := items[..i], items[i], items[i + 1..];
    assert items == before + [item] + after;
    CopyLinesAppend(before + [item], after);
    CopyLinesAppend(before, [item]);
    CopyLinesOne(item);
    var line := CopyLine(item.value);
    assert CopyLines(items) == CopyLines(before) + [line] + CopyLines(after);
    assert CopyLines(items)[|CopyLines(before)|] == line;
  }

  /** With single-line entries, the clipboard text splits back into its lines. */
  lemma ClipboardSplit(items: seq<Option<KeywordData>>)
    requires CopyLines(items) != []
    requires forall k :: Some(k) in items ==> '\n' !in k.keyword && '\n' !in k.tier
    ensures Split(ClipboardText(Some(items)).value, '\n') == CopyLines(items)
  {
    var lines := CopyLines(items);
    CopyLinesStartWithKeyword(items);
    forall i | 0 <= i < |lines| ensures '\n' !in lines[i] {
      assert lines[i] in lines;
      var k :| Some(k) in items && k.keyword != "" && lines[i] == CopyLine(k);
      assert '\n' !in NotAvailable;
      assert lines[i] == k.keyword + " (" + OrElse(k.tier, NotAvailable) + ")";
    }
    SplitJoin(lines, '\n');
  }

  // ===========================================================================
  // Cell decorations

  const GreyBadge := "text-gray-600 bg-gray-50"
  const GreenBadge := "text-green-600 bg-green-50 border-green-200"
  const YellowBadge := "text-yellow-600 bg-yellow-50 border-yellow-200"
  const RedBadge := "text-red-600 bg-red-50 border-red-200"

  /** getCompetitionColor: low, medium and high in any casing; grey otherwise. */
  function CompetitionColor(comp: string): string
  {
    if comp == "" then GreyBadge
    else
      var lower := ToLower(comp);
      if lower == "low" then GreenBadge
      else if lower == "medium" then YellowBadge
      else if lower == "high" then RedBadge
      else GreyBadge
  }

  /** The colour does not depend on the casing of the value. */
  lemma CompetitionColorCaseInsensitive(comp: string)
    ensures CompetitionColor(ToLower(comp)) == CompetitionColor(comp)
  {
    ToLowerIdempotent(comp);
  }

  /** Each declared competition level gets its own colour. */
  lemma CompetitionColorLabels()
    ensures CompetitionColor(CompetitionLabel(Low)) == GreenBadge
    ensures CompetitionColor(CompetitionLabel(Medium)) == YellowBadge
    ensures CompetitionColor(CompetitionLabel(High)) == RedBadge
  {
    LowersTo(CompetitionLabel(Low), "low");
    LowersTo(CompetitionLabel(Medium), "medium");
    LowersTo(CompetitionLabel(High), "high");
  }

  /** Anything that is not a casing of the three levels is grey. */
  lemma CompetitionColorDefault(comp: string)
    requires ToLower(comp) != "low" && ToLower(comp) != "medium" && ToLower(comp) != "high"
    ensures CompetitionColor(comp) == GreyBadge
  {
  }

  datatype Trend = Up | Flat | Down

  /** getVolumeIcon: up above 75, down below 25, flat in between (both ends included). */
  function VolumeIcon(vol: real): (t: Trend)
    ensures t == Up <==> vol > 75.0
    ensures t == Down <==> vol < 25.0
    ensures t == Flat <==> 25.0 <= vol <= 75.0
  {
    if vol > 75.0 then Up else if vol < 25.0 then Down else Flat
  }

  function TrendRank(t: Trend): nat
  {
    match t
    case Down => 0
    case Flat => 1
    case Up => 2
  }

  /** A higher volume never shows a lower trend. */
  lemma VolumeIconMonotone(v: real, w: real)
    requires v <= w
    ensures TrendRank(VolumeIcon(v)) <= TrendRank(VolumeIcon(w))
  {
  }

  /** The table shows a missing volume as 0, which reads as a downward trend. */
  lemma MissingVolumeIsDown()
    ensures VolumeIcon(OrZero(Absent)) == Down
  {
  }
}

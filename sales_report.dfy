/**
 * The sales report page's shaping rules: the category id-to-name table, the pie-chart slices
 * with their "Unknown" fallback, the chart size for a window width, the first-three/expand
 * split of the order rows with its toggle, and the guard on a custom date range.
 */
module SalesReport {
  import opened Wrappers
  import opened Digits

  datatype CategoryRecord = CategoryRecord(id: string, name: string)

  /** One `salesByCategory` entry. */
  datatype CategorySale = CategorySale(quantity: int, amount: int)

  /** One pie-chart slice. */
  datatype Slice = Slice(name: string, value: int)

  datatype OrderDetail = OrderDetail(orderId: string, amount: int, items: int, date: string, id: string)

  datatype Dimensions = Dimensions(width: int, height: int)

  /** `report.type`. */
  datatype ReportType = Monthly | Yearly | Custom

  const UnknownName := "Unknown"

  // ---------------------------------------------------------------------------
  // Category names
  // ---------------------------------------------------------------------------

  /** The `reduce` that writes `acc[cat._id] = cat.name` for each record in turn. */
  function CategoryMap(cats: seq<CategoryRecord>): map<string, string> {
    if cats == [] then map[]
    else CategoryMap(cats[..|cats| - 1])[cats[|cats| - 1].id := cats[|cats| - 1].name]
  }

  /** Index of the last record with id `k`; only meaningful when there is one. */
  predicate IsLastWithId(cats: seq<CategoryRecord>, i: int) {
    0 <= i < |cats| && forall j :: i < j < |cats| ==> cats[j].id != cats[i].id
  }

  /** The table holds exactly the ids of the records. */
  lemma {:induction false} CategoryMapKeys(cats: seq<CategoryRecord>)
    ensures forall k :: k in CategoryMap(cats) <==> exists i :: 0 <= i < |cats| && cats[i].id == k
  {
    if cats != [] {
      var init := cats[..|cats| - 1];
      var last := cats[|cats| - 1];
      CategoryMapKeys(init);
      forall k
        ensures k in CategoryMap(cats) <==> exists i :: 0 <= i < |cats| && cats[i].id == k
      {
        if k in CategoryMap(init) {
          var i :| 0 <= i < |init| && init[i].id == k;
          assert cats[i].id == k;
        }
        if k != last.id && exists i :: 0 <= i < |cats| && cats[i].id == k {
          var i :| 0 <= i < |cats| && cats[i].id == k;
          assert init[i].id == k;
        }
      }
    }
  }

  /** Each id names the last record carrying it: a later duplicate overwrites an earlier one. */
  lemma {:induction false} CategoryMapLastWins(cats: seq<CategoryRecord>)
    ensures forall i :: IsLastWithId(cats, i) ==>
              cats[i].id in CategoryMap(cats) && CategoryMap(cats)[cats[i].id] == cats[i].name
  {
    if cats != [] {
      var init := cats[..|cats| - 1];
      CategoryMapLastWins(init);
      forall i | IsLastWithId(cats, i)
        ensures cats[i].id in CategoryMap(cats) && CategoryMap(cats)[cats[i].id] == cats[i].name
      {
        if i < |cats| - 1 {
          assert init[i] == cats[i];
          assert IsLastWithId(init, i);
        }
      }
    }
  }

  // ---------------------------------------------------------------------------
  // Pie-chart slices
  // ---------------------------------------------------------------------------

  /** The name shown for a category id: its mapped name, or "Unknown" when the id is missing
    * or maps to the empty string. */
  function SliceName(names: map<string, string>, id: string): (r: string)
    ensures r != []
    ensures r == UnknownName <==> id !in names || names[id] == [] || names[id] == UnknownName
    ensures r != UnknownName ==> id in names && r == names[id]
  {
    if id in names && names[id] != [] then names[id] else UnknownName
  }

  /** `prepareCategoryData`: one slice per `salesByCategory` entry, in entry order. */
  function PrepareCategoryData(entries: seq<(string, CategorySale)>, names: map<string, string>): (r: seq<Slice>)
    ensures |r| == |entries|
    ensures forall i :: 0 <= i < |entries| ==> r[i].value == entries[i].1.amount && r[i].name != []
    ensures forall i :: 0 <= i < |entries| ==> r[i].name == SliceName(names, entries[i].0)
  {
    if entries == [] then []
    else [Slice(SliceName(names, entries[0].0), entries[0].1.amount)] + PrepareCategoryData(entries[1..], names)
  }

  /** Against a table built from category records: an entry whose id no record carries is
    * "Unknown", and one whose last record has a non-empty name shows that name. */
  lemma SliceNamesFromRecords(entries: seq<(string, CategorySale)>, cats: seq<CategoryRecord>, e: int, i: int)
    requires 0 <= e < |entries|
    ensures (forall j :: 0 <= j < |cats| ==> cats[j].id != entries[e].0) ==>
              PrepareCategoryData(entries, CategoryMap(cats))[e].name == UnknownName
    ensures IsLastWithId(cats, i) && cats[i].id == entries[e].0 && cats[i].name != [] ==>
              PrepareCategoryData(entries, CategoryMap(cats))[e].name == cats[i].name
  {
    CategoryMapKeys(cats);
    CategoryMapLastWins(cats);
  }

  /** The total of the slices is the total of the entries' amounts. */
  function SliceTotal(r: seq<Slice>): int {
    if r == [] then 0 else r[0].value + SliceTotal(r[1..])
  }

  function AmountTotal(entries: seq<(string, CategorySale)>): int {
    if entries == [] then 0 else entries[0].1.amount + AmountTotal(entries[1..])
  }

  lemma {:induction false} SlicesKeepTotal(entries: seq<(string, CategorySale)>, names: map<string, string>)
    ensures SliceTotal(PrepareCategoryData(entries, names)) == AmountTotal(entries)
  {
    if entries != [] {
      SlicesKeepTotal(entries[1..], names);
      assert PrepareCategoryData(entries, names)[1..] == PrepareCategoryData(entries[1..], names);
    }
  }

  // ---------------------------------------------------------------------------
  // Chart size
  // ---------------------------------------------------------------------------

  /** `getChartDimensions` for a window `width`: 500 by 300 from 768 up; below that the width
    * less 48 of padding, and a height of 280 under 400, else 300. */
  function ChartDimensions(width: int): (r: Dimensions)
    ensures width >= 768 ==> r == Dimensions(500, 300)
    ensures width < 768 ==> r.width == width - 48
    ensures r.width <= width - 48
    ensures r.height == 280 <==> width < 400
    ensures r.height == 300 <==> width >= 400
  {
    if width < 768 then Dimensions(width - 48, if width < 400 then 280 else 300)
    else Dimensions(500, 300)
  }

  /** A wider window never gets a shorter chart. */
  lemma ChartHeightMonotone(width: int, wider: int)
    requires width <= wider
    ensures ChartDimensions(width).height <= ChartDimensions(wider).height
  {
  }

  // ---------------------------------------------------------------------------
  // Detail rows
  // ---------------------------------------------------------------------------

  function Min(a: int, b: int): int {
    if a <= b then a else b
  }

  /** The rows shown: `details.slice(0, 3)`, followed by `details.slice(3)` when expanded. */
  function VisibleDetails(details: seq<OrderDetail>, expanded: bool): (r: seq<OrderDetail>)
    ensures expanded ==> r == details
    ensures !expanded ==> r == details[..Min(3, |details|)]
    ensures |r| <= |details| && r == details[..|r|]
  {
    details[..Min(3, |details|)] + (if expanded && |details| > 3 then details[3..] else [])
  }

  /** The expand/collapse button is shown for more than three rows. */
  predicate ShowToggle(details: seq<OrderDetail>) {
    |details| > 3
  }

  /** The button is shown exactly when collapsing hides a row. */
  lemma ToggleIffRowsHidden(details: seq<OrderDetail>)
    ensures ShowToggle(details) <==> VisibleDetails(details, false) != details
  {
    if ShowToggle(details) {
      assert |VisibleDetails(details, false)| == 3;
    }
  }

  /** The button's caption. */
  function ToggleLabel(details: seq<OrderDetail>, expanded: bool): (r: string)
    requires ShowToggle(details)
    ensures expanded <==> r == "Collapse"
  {
    if expanded then "Collapse" else "Show more (" + NatToString(|details| - 3) + " orders)"
  }

  /** Collapsed, the caption's number is the count of hidden rows. */
  lemma ToggleLabelCountsHidden(details: seq<OrderDetail>)
    requires ShowToggle(details)
    ensures var n := NatToString(|details| - |VisibleDetails(details, false)|);
            && ToggleLabel(details, false) == "Show more (" + n + " orders)"
            && DigitsValue(n) == |details| - |VisibleDetails(details, false)|
  {
    NatToStringRoundTrip(|details| - 3);
  }

  // ---------------------------------------------------------------------------
  // Custom range
  // ---------------------------------------------------------------------------

  /** `handleDateRangeChange`: a custom report is asked for only when the picker gives a range
    * with both ends set; the ends are already formatted as dates. */
  function CustomRange(dates: Option<(Option<string>, Option<string>)>): (r: Option<(string, string)>)
    ensures r.Some? <==> dates.Some? && dates.value.0.Some? && dates.value.1.Some?
    ensures r.Some? ==> r.value.0 == dates.value.0.value && r.value.1 == dates.value.1.value
  {
    match dates
    case Some((Some(start), Some(end))) => Some((start, end))
    case _ => None
  }

  // ---------------------------------------------------------------------------
  // The page state
  // ---------------------------------------------------------------------------

  /** The parts of the report page's state that these rules use. */
  class ReportPage {
    var categories: map<string, string>
    var reportType: ReportType
    var salesByCategory: seq<(string, CategorySale)>
    var details: seq<OrderDetail>
    var isExpanded: bool

    constructor ()
      ensures categories == map[] && reportType == Monthly && salesByCategory == [] && details == []
      ensures !isExpanded
    {
      categories := map[];
      reportType := Monthly;
      salesByCategory := [];
      details := [];
      isExpanded := false;
    }

    /** `fetchCategories` after a successful response: the table is built record by record. */
    method CategoriesFetched(data: seq<CategoryRecord>)
      modifies this
      ensures categories == CategoryMap(data)
      ensures reportType == old(reportType) && salesByCategory == old(salesByCategory) && details == old(details)
      ensures isExpanded == old(isExpanded)
    {
      var acc: map<string, string> := map[];
      var i := 0;
      while i < |data|
        invariant 0 <= i <= |data|
        invariant acc == CategoryMap(data[..i])
      {
        assert data[..i + 1][..i] == data[..i];
        acc := acc[data[i].id := data[i].name];
        i := i + 1;
      }
      assert data[..|data|] == data;
      categories := acc;
    }

    /** A report of type `kind` arrives; the expanded flag is left as it was. */
    method ReportLoaded(kind: ReportType, entries: seq<(string, CategorySale)>, rows: seq<OrderDetail>)
      modifies this
      ensures reportType == kind && salesByCategory == entries && details == rows
      ensures categories == old(categories) && isExpanded == old(isExpanded)
    {
      reportType := kind;
      salesByCategory := entries;
      details := rows;
    }

    /** The expand/collapse button. */
    method ToggleExpanded()
      modifies this
      ensures isExpanded == !old(isExpanded)
      ensures categories == old(categories) && reportType == old(reportType)
      ensures salesByCategory == old(salesByCategory) && details == old(details)
    {
      isExpanded := !isExpanded;
    }

    /** What the report content shows now: a monthly report has the pie's slices, the
      * detail rows and their toggle; a yearly one only the slices; any other type nothing
      * (`slices` is `None` when no pie is drawn). */
    method Render() returns (slices: Option<seq<Slice>>, rows: seq<OrderDetail>, toggle: Option<string>)
      ensures slices.Some? <==> reportType != Custom
      ensures slices.Some? ==> slices.value == PrepareCategoryData(salesByCategory, categories)
      ensures rows == if reportType == Monthly then VisibleDetails(details, isExpanded) else []
      ensures toggle.Some? <==> reportType == Monthly && ShowToggle(details)
      ensures toggle.Some? ==> toggle.value == ToggleLabel(details, isExpanded)
    {
      match reportType
      case Monthly =>
        slices := Some(PrepareCategoryData(salesByCategory, categories));
        rows := VisibleDetails(details, isExpanded);
        toggle := if ShowToggle(details) then Some(ToggleLabel(details, isExpanded)) else None;
      case Yearly =>
        slices := Some(PrepareCategoryData(salesByCategory, categories));
        rows := [];
        toggle := None;
      case Custom =>
        slices := None;
        rows := [];
        toggle := None;
    }
  }

}

/** The recommendation history page (frontend/src/RecommendationHistory.tsx): its paging,
    sort and filter state, the sort a column header click produces, the query it sends
    to the history endpoint, and the label of a session's technical filter. */
module RecommendationHistory {
  import opened Common
  import Api

  /** The table's columns; every one of them is sortable. */
  const Columns: seq<String> :=
    ["generated_at", "principal", "risk_tolerance", "strategy", "prompt_name", "technical_filter", "symbol_count"]

  /** "generated_at-desc": the default column, '-', the default order. */
  const DefaultSort: String := "generated_at" + "-" + "desc"
  const DefaultRowsPerPage: int := 10

  /** The field and order read back from a sort string by destructuring
      sort.split('-'); a missing second part is undefined (None). */
  function SortField(sort: String): String {
    Split(sort, '-')[0]
  }

  function SortOrder(sort: String): (order: Option<String>)
    ensures order.Some? <==> |Split(sort, '-')| >= 2
  {
    var parts := Split(sort, '-');
    if |parts| >= 2 then Some(parts[1]) else None
  }

  /** handleSortChange: clicking the column already sorted flips asc to desc and
      anything else to asc; clicking another column sorts it descending. */
  function NextSort(sort: String, field: String): (next: String)
    ensures StartsWith(next, field + "-")
    ensures SortField(sort) != field ==> next == field + "-desc"
    ensures SortField(sort) == field ==>
      next == field + "-" + (if SortOrder(sort) == Some("asc") then "desc" else "asc")
  {
    var order := if SortField(sort) == field then (if SortOrder(sort) == Some("asc") then "desc" else "asc") else "desc";
    assert (field + "-" + order)[..|field + "-"|] == field + "-";
    field + "-" + order
  }

  /** A sort of the form the page writes: a column, '-', asc or desc. */
  predicate SortOf(sort: String, field: String, order: String) {
    field in Columns && (order == "asc" || order == "desc") && sort == field + "-" + order
  }

  ghost predicate WellFormedSort(sort: String) {
    exists field, order :: SortOf(sort, field, order)
  }

  lemma ReadBack(field: String, order: String)
    requires field in Columns && (order == "asc" || order == "desc")
    ensures Split(field + "-" + order, '-') == [field, order]
    ensures SortField(field + "-" + order) == field
    ensures SortOrder(field + "-" + order) == Some(order)
  {
    ColumnUndashed(field);
    ColumnUndashed(order);
    SplitCons(field, order, '-');
    assert field + "-" + order == field + ['-'] + order;
  }

  /** No column name or order holds a '-'. */
  lemma ColumnUndashed(w: String)
    requires w in Columns || w == "asc" || w == "desc"
    ensures '-' !in w
  {
    if w in Api.HistorySortFields || w == "asc" || w == "desc" {
      Api.SortWordChars(w);
    } else {
      assert forall i :: 0 <= i < |w| ==> w[i] != '-';
    }
  }

  /** Clicking the sorted column flips its order. */
  lemma SameColumnFlips(field: String, order: String)
    requires field in Columns && (order == "asc" || order == "desc")
    ensures NextSort(field + "-" + order, field) == field + "-" + (if order == "asc" then "desc" else "asc")
  {
    ReadBack(field, order);
  }

  /** Clicking another column sorts it descending. */
  lemma OtherColumnDescending(field: String, order: String, clicked: String)
    requires field in Columns && (order == "asc" || order == "desc") && clicked != field
    ensures NextSort(field + "-" + order, clicked) == clicked + "-desc"
  {
    ReadBack(field, order);
  }

  /** Clicking the same column twice restores the sort, and every click keeps the sort
      in the page's own form. */
  lemma ClickTwiceRestores(sort: String, field: String, order: String)
    requires SortOf(sort, field, order)
    ensures SortOf(NextSort(sort, field), field, if order == "asc" then "desc" else "asc")
    ensures NextSort(NextSort(sort, field), field) == sort
  {
    var flipped := if order == "asc" then "desc" else "asc";
    SameColumnFlips(field, order);
    SameColumnFlips(field, flipped);
  }

  lemma ClickKeepsForm(sort: String, field: String)
    requires WellFormedSort(sort) && field in Columns
    ensures WellFormedSort(NextSort(sort, field))
  {
    var f, o :| SortOf(sort, f, o);
    ReadBack(f, o);
    var next := NextSort(sort, field);
    if f == field {
      assert SortOf(next, field, if o == "asc" then "desc" else "asc");
    } else {
      assert SortOf(next, field, "desc");
    }
  }

  /** As the history endpoint is written, every sort the page sends for the principal
      and strategy columns is refused; the intended parser accepts them. */
  lemma PageSortsRefused(sort: String, field: String, order: String)
    requires SortOf(sort, field, order) && (field == "principal" || field == "strategy")
    ensures Api.ParseHistorySortAsWritten(sort).None?
    ensures Api.ParseHistorySort(sort) == Some(Api.SortChoice(field, order))
  {
    Api.PageSortRejected(field, order);
  }

  /** Three of the page's sortable columns are not sortable on the endpoint at all:
      both parsers refuse them. */
  lemma UnlistedColumnsRefused(sort: String, field: String, order: String)
    requires SortOf(sort, field, order) && field in Columns && field !in Api.HistorySortFields
    ensures Api.ParseHistorySortAsWritten(sort).None?
    ensures Api.ParseHistorySort(sort).None?
  {
    ReadBack(field, order);
    assert '-' in sort by {
      assert sort[|field|] == '-';
    }
    Api.UnlistedFieldRefused(sort, field, order);
  }

  /** The page's own default sort is accepted as written. */
  lemma DefaultSortAccepted()
    ensures Api.ParseHistorySortAsWritten(DefaultSort) == Some(Api.SortChoice("generated_at", "desc"))
  {
    Api.UnderscoreFieldAccepted("generated_at", "desc");
  }

  /** The label of a session's technical filter: its first 15 characters followed by
      "..." whatever its length, or なし when there is none. */
  function FilterLabel(filter: Option<String>): (text: String)
    ensures filter.None? || filter.value == [] ==> text == "なし"
    ensures filter.Some? && filter.value != [] ==>
      && |text| == (if |filter.value| < 15 then |filter.value| else 15) + 3
      && StartsWith(filter.value, text[..|text| - 3])
      && EndsWith(text, "...")
  {
    if filter.None? || filter.value == [] then "なし"
    else
      var shown := if |filter.value| < 15 then filter.value else filter.value[..15];
      var text := shown + "...";
      assert text[..|text| - 3] == shown;
      assert text[|text| - 3..] == "...";
      text
  }

  /** The history page's state. The fetch the page makes on every change of it is the
      request RequestParams describes. */
  class HistoryPage {
    var page: int
    var rowsPerPage: int
    var sort: String
    var startDate: Option<String>
    var endDate: Option<String>
    var strategyFilter: String

    /** The sort is always one the page wrote itself. */
    ghost predicate Valid()
      reads this
    {
      WellFormedSort(sort)
    }

    constructor ()
      ensures Valid()
      ensures page == 0 && rowsPerPage == DefaultRowsPerPage && sort == DefaultSort
      ensures startDate.None? && endDate.None? && strategyFilter == []
    {
      page := 0;
      rowsPerPage := DefaultRowsPerPage;
      sort := DefaultSort;
      startDate := None;
      endDate := None;
      strategyFilter := [];
      assert SortOf(DefaultSort, "generated_at", "desc");
    }

    /** handleChangePage */
    method ChangePage(newPage: int)
      modifies this
      ensures page == newPage
      ensures rowsPerPage == old(rowsPerPage) && sort == old(sort)
      ensures startDate == old(startDate) && endDate == old(endDate) && strategyFilter == old(strategyFilter)
    {
      page := newPage;
    }

    /** handleChangeRowsPerPage: the new page size (the input parsed as a decimal
        integer) and back to the first page. */
    method ChangeRowsPerPage(rows: int)
      modifies this
      ensures rowsPerPage == rows && page == 0
      ensures sort == old(sort)
      ensures startDate == old(startDate) && endDate == old(endDate) && strategyFilter == old(strategyFilter)
    {
      rowsPerPage := rows;
      page := 0;
    }

    /** handleSortChange for a clicked column. */
    method SortChange(field: String)
      requires Valid() && field in Columns
      modifies this
      ensures Valid()
      ensures sort == NextSort(old(sort), field)
      ensures page == old(page) && rowsPerPage == old(rowsPerPage)
      ensures startDate == old(startDate) && endDate == old(endDate) && strategyFilter == old(strategyFilter)
    {
      ClickKeepsForm(sort, field);
      sort := NextSort(sort, field);
    }

    /** The filter controls set their state directly; the page number is kept. The page
        has one setter per control; each is this method given the other two filters'
        current values. */
    method ChangeFilters(start: Option<String>, end: Option<String>, strategy: String)
      modifies this
      ensures startDate == start && endDate == end && strategyFilter == strategy
      ensures page == old(page) && rowsPerPage == old(rowsPerPage) && sort == old(sort)
    {
      startDate := start;
      endDate := end;
      strategyFilter := strategy;
    }

    /** The query of fetchSessions for the current state. */
    function Request(): (params: seq<(String, String)>)
      reads this
      ensures params == QueryParams(page, rowsPerPage, sort, startDate, endDate, strategyFilter)
    {
      QueryParams(page, rowsPerPage, sort, startDate, endDate, strategyFilter)
    }
  }

  /** The query of fetchSessions: the 1-based page, the page size and the sort, then
      each filter only when it is set. */
  function QueryParams(page: int, rowsPerPage: int, sort: String,
                       startDate: Option<String>, endDate: Option<String>, strategyFilter: String)
      : (params: seq<(String, String)>)
    ensures |params| >= 3
    ensures params[0] == ("page", IntText(page + 1))
    ensures params[1] == ("limit", IntText(rowsPerPage))
    ensures params[2] == ("sort", sort)
    ensures params[3..] == Sent("start_date", startDate) + Sent("end_date", endDate)
                           + Sent("strategy", if strategyFilter != [] then Some(strategyFilter) else None)
  {
    var optional := Sent("start_date", startDate) + Sent("end_date", endDate)
                    + Sent("strategy", if strategyFilter != [] then Some(strategyFilter) else None);
    [("page", IntText(page + 1)), ("limit", IntText(rowsPerPage)), ("sort", sort)] + optional
  }

  /** `...(value && { key: value })`: the entry only when the value is set. */
  function Sent(key: String, value: Option<String>): (entry: seq<(String, String)>)
    ensures value.None? ==> entry == []
    ensures value.Some? ==> entry == [(key, value.value)]
  {
    if value.Some? then [(key, value.value)] else []
  }

  predicate HasParam(params: seq<(String, String)>, key: String) {
    exists i :: 3 <= i < |params| && params[i].0 == key
  }

  /** Each optional filter is in the query exactly when it is set, with its value. */
  lemma QueryFilters(page: int, rowsPerPage: int, sort: String,
                     startDate: Option<String>, endDate: Option<String>, strategyFilter: String)
    ensures var params := QueryParams(page, rowsPerPage, sort, startDate, endDate, strategyFilter);
      && (HasParam(params, "start_date") <==> startDate.Some?)
      && (HasParam(params, "end_date") <==> endDate.Some?)
      && (HasParam(params, "strategy") <==> strategyFilter != [])
      && (strategyFilter != [] ==> params[|params| - 1] == ("strategy", strategyFilter))
  {
    var params := QueryParams(page, rowsPerPage, sort, startDate, endDate, strategyFilter);
    var strategy := if strategyFilter != [] then Some(strategyFilter) else None;
    assert "start_date" != "end_date" && "start_date" != "strategy" && "end_date" != "strategy";
    SentKeys(params, startDate, endDate, strategy, "start_date");
    SentKeys(params, startDate, endDate, strategy, "end_date");
    SentKeys(params, startDate, endDate, strategy, "strategy");
    if strategyFilter != [] {
      var tail := params[3..];
      assert tail[|tail| - 1] == ("strategy", strategyFilter);
      assert params[|params| - 1] == tail[|tail| - 1];
    }
  }

  /** A key is among the optional parameters exactly when its entry was sent. */
  lemma SentKeys(params: seq<(String, String)>, startDate: Option<String>, endDate: Option<String>,
                 strategy: Option<String>, key: String)
    requires |params| >= 3
    requires params[3..] == Sent("start_date", startDate) + Sent("end_date", endDate) + Sent("strategy", strategy)
    ensures HasParam(params, key) <==>
      (startDate.Some? && key == "start_date") || (endDate.Some? && key == "end_date") || (strategy.Some? && key == "strategy")
  {
    var a, b, c := Sent("start_date", startDate), Sent("end_date", endDate), Sent("strategy", strategy);
    HasParamIsTailKey(params, key);
    HasKeyAppend(a + b, c, key);
    HasKeyAppend(a, b, key);
    HasKeySent("start_date", startDate, key);
    HasKeySent("end_date", endDate, key);
    HasKeySent("strategy", strategy, key);
  }

  /** Some entry of the list has this key. */
  predicate HasKey(entries: seq<(String, String)>, key: String) {
    exists i :: 0 <= i < |entries| && entries[i].0 == key
  }

  lemma HasParamIsTailKey(params: seq<(String, String)>, key: String)
    requires |params| >= 3
    ensures HasParam(params, key) <==> HasKey(params[3..], key)
  {
    if HasParam(params, key) {
      var i :| 3 <= i < |params| && params[i].0 == key;
      assert params[3..][i - 3].0 == key;
    }
    if HasKey(params[3..], key) {
      var i :| 0 <= i < |params[3..]| && params[3..][i].0 == key;
      assert params[i + 3].0 == key;
    }
  }

  lemma HasKeyAppend(x: seq<(String, String)>, y: seq<(String, String)>, key: String)
    ensures HasKey(x + y, key) <==> HasKey(x, key) || HasKey(y, key)
  {
    if HasKey(x + y, key) {
      var i :| 0 <= i < |x + y| && (x + y)[i].0 == key;
      if i >= |x| {
        assert y[i - |x|].0 == key;
      }
    }
    if HasKey(x, key) {
      var i :| 0 <= i < |x| && x[i].0 == key;
      assert (x + y)[i].0 == key;
    }
    if HasKey(y, key) {
      var i :| 0 <= i < |y| && y[i].0 == key;
      assert (x + y)[i + |x|].0 == key;
    }
  }

  lemma HasKeySent(k: String, value: Option<String>, key: String)
    ensures HasKey(Sent(k, value), key) <==> value.Some? && k == key
  {
    if value.Some? && k == key {
      assert Sent(k, value)[0].0 == key;
    }
  }


  /** The endpoint skips exactly the rows of the earlier pages: the 1-based page the
      page sends makes its offset the 0-based page times the page size. */
  lemma RequestedOffset(page: int, rowsPerPage: int)
    ensures Api.Offset(page + 1, rowsPerPage) == page * rowsPerPage
  {
  }

  /** A strategy filter the page sends is applied by the endpoint, and none is sent or
      applied when it is cleared. */
  lemma StrategyFilterApplied(strategyFilter: String, start: Option<String>, end: Option<String>)
    ensures var f := Api.HistoryFilters(start, end, if strategyFilter != [] then Some(strategyFilter) else None);
      ("strategy" in f.1 <==> strategyFilter != [])
      && (strategyFilter != [] ==> f.1["strategy"] == strategyFilter)
  {
  }
}

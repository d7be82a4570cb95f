/**
 * `AuditLogs`: the audit page — newest-first rows, the operation / DAG /
 * user-name filters, the dropdown options and the page slice.
 */
module AuditLogsPage {
  import opened Wrappers
  import opened Seqs
  import opened Text
  import opened AuditLogEntity
  import opened Sorting

  /** The three filter fields; an empty field filters nothing. */
  datatype LogFilters = LogFilters(operation: string, dagId: string, search: string)

  const NO_FILTERS := LogFilters("", "", "")
  const LOAD_FAILED := "Failed to load audit logs. Please try again later."

  /** The user-name search is honoured only for administrators. */
  function KeepsLog(filters: LogFilters, isAdmin: bool): AuditLog -> bool
  {
    (log: AuditLog) =>
      (filters.operation == "" || OperationName(log.operation) == filters.operation)
      && (filters.dagId == "" || log.dagId == filters.dagId)
      && (filters.search == "" || !isAdmin || ContainsIgnoreCase(log.username, filters.search))
  }

  /** `filteredLogs`. */
  function FilteredLogs(logs: seq<AuditLog>, filters: LogFilters, isAdmin: bool): (r: seq<AuditLog>)
    ensures |r| <= |logs|
    ensures forall x :: x in r <==>
      x in logs && (filters.operation == "" || OperationName(x.operation) == filters.operation)
      && (filters.dagId == "" || x.dagId == filters.dagId)
      && (filters.search == "" || !isAdmin || ContainsIgnoreCase(x.username, filters.search))
  {
    Filter(KeepsLog(filters, isAdmin), logs)
  }

  /** The filters keep the newest-first order of the loaded rows. */
  lemma FilteredLogsKeepOrder(logs: seq<AuditLog>, filters: LogFilters, isAdmin: bool)
    ensures Subsequence(FilteredLogs(logs, filters, isAdmin), logs)
  {
    FilterIsSubsequence(KeepsLog(filters, isAdmin), logs);
  }

  /** For a user who is not an administrator the search box has no effect at all. */
  lemma SearchIgnoredForNonAdmin(logs: seq<AuditLog>, filters: LogFilters)
    ensures FilteredLogs(logs, filters, false) == FilteredLogs(logs, filters.(search := ""), false)
  {
    FilterSameSelection(KeepsLog(filters, false), KeepsLog(filters.(search := ""), false), logs);
  }

  /** With every field empty all rows are listed. */
  lemma NoFiltersKeepAll(logs: seq<AuditLog>, isAdmin: bool)
    ensures FilteredLogs(logs, NO_FILTERS, isAdmin) == logs
  {
    FilterKeepsAll(KeepsLog(NO_FILTERS, isAdmin), logs);
  }

  /**
   * `filtered.slice(page * rowsPerPage, page * rowsPerPage + rowsPerPage)`:
   * never more than a page of rows, and for non-negative arguments exactly
   * the `page`-th page of the list.
   */
  function PageOfRows(rows: seq<AuditLog>, page: int, rowsPerPage: int): (r: seq<AuditLog>)
    ensures rowsPerPage >= 0 ==> |r| <= rowsPerPage
    ensures page >= 0 && rowsPerPage >= 0 ==> r == Page(rows, page, rowsPerPage)
  {
    var start := page * rowsPerPage;
    var a := SliceBound(start, |rows|);
    var b := SliceBound(start + rowsPerPage, |rows|);
    assert rowsPerPage >= 0 && a < b ==> b - a <= rowsPerPage;
    Slice(rows, start, start + rowsPerPage)
  }

  // Dropdown options

  function OperationNames(logs: seq<AuditLog>): (names: seq<string>)
    ensures |names| == |logs|
    ensures forall i :: 0 <= i < |logs| ==> names[i] == OperationName(logs[i].operation)
  {
    seq(|logs|, i requires 0 <= i < |logs| => OperationName(logs[i].operation))
  }

  function DagIdsOf(logs: seq<AuditLog>): (ids: seq<string>)
    ensures |ids| == |logs|
    ensures forall i :: 0 <= i < |logs| ==> ids[i] == logs[i].dagId
  {
    seq(|logs|, i requires 0 <= i < |logs| => logs[i].dagId)
  }

  /** `operationTypes`: each operation that occurs, once, in ascending order. */
  function OperationTypes(logs: seq<AuditLog>): (options: seq<string>)
    ensures StrictlyAscending(options)
    ensures forall y :: y in options <==> exists i :: 0 <= i < |logs| && OperationName(logs[i].operation) == y
  {
    var names := OperationNames(logs);
    assert forall i :: 0 <= i < |logs| ==> names[i] in names;
    SortedDistinct(names)
  }

  /** `dagIds`: each DAG id that occurs, once, in ascending order. */
  function DagIdOptions(logs: seq<AuditLog>): (options: seq<string>)
    ensures StrictlyAscending(options)
    ensures forall y :: y in options <==> exists i :: 0 <= i < |logs| && logs[i].dagId == y
  {
    var ids := DagIdsOf(logs);
    assert forall i :: 0 <= i < |logs| ==> ids[i] in ids;
    SortedDistinct(ids)
  }

  /** Every operation offered in the dropdown selects at least one row. */
  lemma OperationOptionSelects(logs: seq<AuditLog>, option: string, isAdmin: bool)
    requires option in OperationTypes(logs)
    ensures FilteredLogs(logs, LogFilters(option, "", ""), isAdmin) != []
  {
    var i :| 0 <= i < |logs| && OperationName(logs[i].operation) == option;
    assert logs[i] in FilteredLogs(logs, LogFilters(option, "", ""), isAdmin);
  }

  /** Every DAG id offered in the dropdown selects at least one row. */
  lemma DagOptionSelects(logs: seq<AuditLog>, option: string, isAdmin: bool)
    requires option in DagIdOptions(logs)
    ensures FilteredLogs(logs, LogFilters("", option, ""), isAdmin) != []
  {
    var i :| 0 <= i < |logs| && logs[i].dagId == option;
    assert logs[i] in FilteredLogs(logs, LogFilters("", option, ""), isAdmin);
  }

  /** The page's state. */
  class AuditLogsView {
    var logs: seq<AuditLog>
    var filters: LogFilters
    var isAdmin: bool
    var page: int
    var rowsPerPage: int
    var error: Option<string>
    var loading: bool

    constructor (isAdmin: bool)
      ensures logs == [] && filters == NO_FILTERS && this.isAdmin == isAdmin
      ensures page == 0 && rowsPerPage == 10 && error.None? && loading
    {
      logs := [];
      filters := NO_FILTERS;
      this.isAdmin := isAdmin;
      page := 0;
      rowsPerPage := 10;
      error := None;
      loading := true;
    }

    /** `paginatedLogs`: what the table shows. */
    function Displayed(): (shown: seq<AuditLog>)
      reads this
      ensures rowsPerPage >= 0 ==> |shown| <= rowsPerPage
      ensures forall x :: x in shown ==> x in logs
    {
      PageOfRows(FilteredLogs(logs, filters, isAdmin), page, rowsPerPage)
    }

    /** The load effect with the service's rows (or a failure): the rows are kept newest first. */
    method LoadLogs(data: Result<seq<AuditLog>, string>)
      modifies this
      ensures data.Ok? ==> logs == SortNewestFirst(data.value) && NewestFirst(logs)
                           && multiset(logs) == multiset(data.value) && error.None?
      ensures data.Err? ==> logs == old(logs) && error == Some(LOAD_FAILED)
      ensures filters == old(filters) && page == old(page) && rowsPerPage == old(rowsPerPage)
      ensures isAdmin == old(isAdmin) && !loading
    {
      loading := true;
      if data.Ok? {
        logs := SortNewestFirst(data.value);
        error := None;
      } else {
        error := Some(LOAD_FAILED);
      }
      loading := false;
    }

    method HandleResetFilters()
      modifies this
      ensures filters == NO_FILTERS && page == 0
      ensures logs == old(logs) && rowsPerPage == old(rowsPerPage) && isAdmin == old(isAdmin)
    {
      filters := NO_FILTERS;
      page := 0;
    }

    method HandleOperationFilterChange(value: string)
      modifies this
      ensures filters == old(filters).(operation := value) && page == 0
      ensures logs == old(logs) && rowsPerPage == old(rowsPerPage) && isAdmin == old(isAdmin)
    {
      filters := filters.(operation := value);
      page := 0;
    }

    method HandleDagIdFilterChange(value: string)
      modifies this
      ensures filters == old(filters).(dagId := value) && page == 0
      ensures logs == old(logs) && rowsPerPage == old(rowsPerPage) && isAdmin == old(isAdmin)
    {
      filters := filters.(dagId := value);
      page := 0;
    }

    method HandleSearchChange(value: string)
      modifies this
      ensures filters == old(filters).(search := value) && page == 0
      ensures logs == old(logs) && rowsPerPage == old(rowsPerPage) && isAdmin == old(isAdmin)
    {
      filters := filters.(search := value);
      page := 0;
    }

    method HandleChangePage(newPage: int)
      modifies this
      ensures page == newPage
      ensures logs == old(logs) && filters == old(filters) && rowsPerPage == old(rowsPerPage) && isAdmin == old(isAdmin)
    {
      page := newPage;
    }

    /** `parseInt(value, 10)` is passed in already parsed. */
    method HandleChangeRowsPerPage(rows: int)
      modifies this
      ensures rowsPerPage == rows && page == 0
      ensures logs == old(logs) && filters == old(filters) && isAdmin == old(isAdmin)
    {
      rowsPerPage := rows;
      page := 0;
    }
  }

  /** After any filter change the table starts again from its first rows. */
  lemma FirstPageAfterFilterChange(view: AuditLogsView)
    requires view.page == 0 && view.rowsPerPage >= 0
    ensures var all := FilteredLogs(view.logs, view.filters, view.isAdmin);
      view.Displayed() == all[..if view.rowsPerPage < |all| then view.rowsPerPage else |all|]
  {
  }
}

/** `DagAuditLogs`: the audit rows of one DAG, newest first, one page at a time. */
module DagAuditLogs {
  import opened Wrappers
  import opened Seqs
  import opened AuditLogEntity
  import opened Sorting
  import AuditLogsPage

  const MISSING_DAG_ID := "DAG ID is missing"

  class DagAuditLogsView {
    var logs: seq<AuditLog>
    var page: int
    var rowsPerPage: int
    var error: Option<string>
    var loading: bool

    constructor ()
      ensures logs == [] && page == 0 && rowsPerPage == 10 && error.None? && loading
    {
      logs := [];
      page := 0;
      rowsPerPage := 10;
      error := None;
      loading := true;
    }

    /** `logs.slice(page * rowsPerPage, page * rowsPerPage + rowsPerPage)`. */
    function Displayed(): (shown: seq<AuditLog>)
      reads this
      ensures rowsPerPage >= 0 ==> |shown| <= rowsPerPage
      ensures page >= 0 && rowsPerPage >= 0 ==> shown == Page(logs, page, rowsPerPage)
    {
      AuditLogsPage.PageOfRows(logs, page, rowsPerPage)
    }

    /**
     * The load effect for the route's DAG id, with the service's rows (or
     * a failure): without an id nothing is fetched and the page reports the
     * missing id; otherwise the rows are kept newest first.
     */
    method FetchLogs(dagId: Option<string>, data: Result<seq<AuditLog>, string>) returns (fetched: bool)
      modifies this
      ensures fetched <==> dagId.Some? && dagId.value != ""
      ensures !fetched ==> error == Some(MISSING_DAG_ID) && logs == old(logs)
      ensures fetched && data.Ok? ==> logs == SortNewestFirst(data.value) && NewestFirst(logs)
                                      && multiset(logs) == multiset(data.value) && error.None?
      ensures fetched && data.Err? ==> logs == old(logs) && error == Some(AuditLogsPage.LOAD_FAILED)
      ensures page == old(page) && rowsPerPage == old(rowsPerPage) && !loading
    {
      if dagId.None? || dagId.value == "" {
        error := Some(MISSING_DAG_ID);
        loading := false;
        return false;
      }
      loading := true;
      if data.Ok? {
        logs := SortNewestFirst(data.value);
        error := None;
      } else {
        error := Some(AuditLogsPage.LOAD_FAILED);
      }
      loading := false;
      return true;
    }

    method HandleChangePage(newPage: int)
      modifies this
      ensures page == newPage && logs == old(logs) && rowsPerPage == old(rowsPerPage)
    {
      page := newPage;
    }

    /** A new page size starts again from the first page. */
    method HandleChangeRowsPerPage(rows: int)
      modifies this
      ensures rowsPerPage == rows && page == 0 && logs == old(logs)
    {
      rowsPerPage := rows;
      page := 0;
    }
  }

  /** Walking the pages in order lists the rows newest first, without gaps or repeats. */
  lemma PagesListNewestFirst(data: seq<AuditLog>, rowsPerPage: nat, k: nat)
    requires rowsPerPage > 0 && k * rowsPerPage >= |data|
    ensures FirstPages(SortNewestFirst(data), k, rowsPerPage) == SortNewestFirst(data)
  {
    var sorted := SortNewestFirst(data);
    assert |sorted| == |data| by {
      assert |multiset(sorted)| == |multiset(data)|;
    }
    PagesCoverAll(sorted, rowsPerPage, k);
  }

  lemma PagesCoverAll(s: seq<AuditLog>, rowsPerPage: nat, k: nat)
    requires rowsPerPage > 0 && k * rowsPerPage >= |s|
    ensures FirstPages(s, k, rowsPerPage) == s
  {
    PagesTile(s, k, rowsPerPage);
    assert s[..|s|] == s;
  }
}

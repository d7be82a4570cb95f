/**
 * `DagsList`: the query the DAG table sends, its page arithmetic, the page
 * resets of its handlers, and the status chip of each row.
 */
module DagsList {
  import opened Wrappers
  import opened Seqs
  import opened AirflowDtos
  import opened Upstream
  import opened StatusChip
  import opened JavaInt
  import PageResponse
  import DagController

  /** The table asks for ten DAGs per page. */
  const PAGE_SIZE := 10

  /** The query parameters of one `getDags` call; an absent value is a parameter not sent. */
  datatype DagsRequest = DagsRequest(isPaused: Option<bool>, search: Option<string>, page: int, size: int)

  /** The paused selector: `all` sends nothing, `true` sends true, any other choice sends false. */
  function PausedParam(isPaused: string): (p: Option<bool>)
    ensures p.None? <==> isPaused == "all"
    ensures p == Some(true) <==> isPaused == "true"
  {
    if isPaused == "all" then None else Some(isPaused == "true")
  }

  /** An empty search box sends no search. */
  function SearchParam(searchTerm: string): (p: Option<string>)
    ensures p.None? <==> searchTerm == ""
    ensures p.Some? ==> p.value == searchTerm
  {
    if searchTerm == "" then None else Some(searchTerm)
  }

  /** The request for the 1-based UI page `page`: the server counts pages from 0. */
  function Request(isPaused: string, searchTerm: string, page: int): (r: DagsRequest)
    ensures r.page + 1 == page && r.size == PAGE_SIZE
  {
    DagsRequest(PausedParam(isPaused), SearchParam(searchTerm), page - 1, PAGE_SIZE)
  }

  /** `Math.ceil((total_entries || 0) / 10)`. */
  function TotalPages(totalEntries: Option<int>): (n: int)
    ensures var total := if totalEntries.Some? then totalEntries.value else 0;
      (n - 1) * PAGE_SIZE < total <= n * PAGE_SIZE
  {
    PageResponse.CeilDiv(if totalEntries.Some? then totalEntries.value else 0, PAGE_SIZE)
  }

  /**
   * Against the server's `getDags`, a 1-based UI page shows DAGs exactly
   * when it is one of the pages the UI counts from the reported total, as
   * long as the server's `int` offset of the page's end does not overflow.
   */
  lemma UiPagesMatchServerPages(dags: seq<Dag>, isPaused: string, searchTerm: string, page: int)
    requires page >= 1 && page * PAGE_SIZE <= INT_MAX && |dags| <= INT_MAX
    ensures var request := Request(isPaused, searchTerm, page);
      var answer := DagController.GetDags(Reply.Success(DagCollection(dags, None)), None, request.isPaused, request.search,
                                          request.page, request.size);
      answer.Ok? && (answer.value.dags != [] <==> page <= TotalPages(answer.value.totalEntries))
  {
    var request := Request(isPaused, searchTerm, page);
    var filtered := DagController.FilterDags(dags, None, request.isPaused, request.search);
    var n := |filtered|;
    var q := TotalPages(Some(n));
    var start := (page - 1) * PAGE_SIZE;
    assert IsInt(start) && IsInt(start + PAGE_SIZE);
    if page <= q {
      assert start <= (q - 1) * PAGE_SIZE;
    } else {
      assert q * PAGE_SIZE <= start;
    }
  }

  /** The page descriptor the table keeps. */
  datatype PageInfo = PageInfo(currentPage: int, totalPages: int, pageSize: int, totalElements: int)

  /** The chip of a row: an inactive DAG is `Inactive` whatever its paused flag. */
  function DagStatusChip(isActive: Option<bool>, isPaused: Option<bool>): (chip: (string, Colour))
    ensures isActive != Some(true) ==> chip == ("Inactive", Default)
    ensures isActive == Some(true) && isPaused == Some(true) ==> chip == ("Paused", Warning)
    ensures isActive == Some(true) && isPaused != Some(true) ==> chip == ("Active", Colour.Success)
  {
    if isActive != Some(true) then ("Inactive", Default)
    else if isPaused == Some(true) then ("Paused", Warning)
    else ("Active", Colour.Success)
  }

  const FETCH_FAILED := "Failed to fetch DAGs"

  /** The table's state: rows, selector, search box, page and page descriptor. */
  class DagsListView {
    var dags: seq<Dag>
    var isPaused: string
    var searchTerm: string
    var page: int
    var pageInfo: PageInfo
    var error: Option<string>
    var loading: bool

    constructor ()
      ensures dags == [] && isPaused == "all" && searchTerm == "" && page == 1
      ensures pageInfo == PageInfo(0, 0, PAGE_SIZE, 0) && error.None? && !loading
    {
      dags := [];
      isPaused := "all";
      searchTerm := "";
      page := 1;
      pageInfo := PageInfo(0, 0, PAGE_SIZE, 0);
      error := None;
      loading := false;
    }

    /**
     * `fetchDags` with the service's answer (the collection, or the error's
     * message): the page descriptor is refreshed and a page beyond the last
     * one falls back to the first.
     */
    method FetchDags(reply: Result<DagCollection, string>) returns (request: DagsRequest)
      modifies this
      ensures request == Request(old(isPaused), old(searchTerm), old(page))
      ensures isPaused == old(isPaused) && searchTerm == old(searchTerm) && !loading
      ensures reply.Ok? ==>
        var total := if reply.value.totalEntries.Some? then reply.value.totalEntries.value else 0;
        var pages := TotalPages(reply.value.totalEntries);
        dags == reply.value.dags && error.None?
        && pageInfo == PageInfo(old(page), pages, PAGE_SIZE, total)
        && page == (if old(page) > pages && pages > 0 then 1 else old(page))
      ensures reply.Ok? && old(page) >= 1 && pageInfo.totalPages > 0 ==> 1 <= page <= pageInfo.totalPages
      ensures reply.Err? ==>
        error == Some(if reply.error != "" then reply.error else FETCH_FAILED)
        && dags == old(dags) && pageInfo == old(pageInfo) && page == old(page)
    {
      loading := true;
      error := None;
      request := Request(isPaused, searchTerm, page);
      if reply.Ok? {
        dags := reply.value.dags;
        var total := if reply.value.totalEntries.Some? then reply.value.totalEntries.value else 0;
        var pages := TotalPages(reply.value.totalEntries);
        pageInfo := PageInfo(page, pages, PAGE_SIZE, total);
        if page > pages && pages > 0 {
          page := 1;
        }
      } else {
        error := Some(if reply.error != "" then reply.error else FETCH_FAILED);
      }
      loading := false;
    }

    /** A new search goes back to the first page. */
    method HandleSearchChange(value: string)
      modifies this
      ensures searchTerm == value && page == 1
      ensures isPaused == old(isPaused) && dags == old(dags) && pageInfo == old(pageInfo)
    {
      searchTerm := value;
      page := 1;
    }

    /** A new paused choice goes back to the first page. */
    method HandlePausedChange(value: string)
      modifies this
      ensures isPaused == value && page == 1
      ensures searchTerm == old(searchTerm) && dags == old(dags) && pageInfo == old(pageInfo)
    {
      isPaused := value;
      page := 1;
    }

    method HandlePageChange(value: int)
      modifies this
      ensures page == value
      ensures isPaused == old(isPaused) && searchTerm == old(searchTerm) && dags == old(dags) && pageInfo == old(pageInfo)
    {
      page := value;
    }
  }
}

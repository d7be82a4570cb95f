/**
 * `DagController`: `getDags` filters the whole DAG list locally and cuts
 * one page out of it with `int` index arithmetic and `subList`;
 * `deleteDag` rejects a blank id before the service is called.
 */
module DagController {
  import opened Wrappers
  import opened Seqs
  import opened Text
  import opened JavaInt
  import opened Exceptions
  import opened AuditLogEntity
  import opened AuditLogService
  import opened AirflowDtos
  import opened Upstream
  import opened Effects
  import Dags = DagService

  function ByActive(isActive: Option<bool>): Dag -> bool
  {
    (d: Dag) => isActive.None? || d.isActive == isActive
  }

  function ByPaused(isPaused: Option<bool>): Dag -> bool
  {
    (d: Dag) => isPaused.None? || d.isPaused == isPaused
  }

  /** Case-insensitive match of the id, or of a present description. */
  function BySearch(search: Option<string>): Dag -> bool
  {
    (d: Dag) => search.None? || ContainsIgnoreCase(d.dagId, search.value)
                || (d.description.Some? && ContainsIgnoreCase(d.description.value, search.value))
  }

  /** The three filters at once: the reference the chained stream filters are checked against. */
  function KeepsDag(isActive: Option<bool>, isPaused: Option<bool>, search: Option<string>): Dag -> bool
  {
    (d: Dag) => ByActive(isActive)(d) && ByPaused(isPaused)(d) && BySearch(search)(d)
  }

  /** The stream of `getDags`: three `filter` stages in a row. */
  function FilterDags(dags: seq<Dag>, isActive: Option<bool>, isPaused: Option<bool>, search: Option<string>): (r: seq<Dag>)
    ensures r == Filter(KeepsDag(isActive, isPaused, search), dags)
    ensures forall i :: 0 <= i < |r| ==> KeepsDag(isActive, isPaused, search)(r[i])
  {
    var activeAndPaused := (d: Dag) => ByActive(isActive)(d) && ByPaused(isPaused)(d);
    FilterConjunction(activeAndPaused, ByPaused(isPaused), ByActive(isActive), dags);
    FilterConjunction(KeepsDag(isActive, isPaused, search), BySearch(search), activeAndPaused, dags);
    Filter(BySearch(search), Filter(ByPaused(isPaused), Filter(ByActive(isActive), dags)))
  }

  /** With no filter given, every DAG is kept, in order. */
  lemma NoFilterKeepsAll(dags: seq<Dag>)
    ensures FilterDags(dags, None, None, None) == dags
  {
    forall i | 0 <= i < |dags| ensures KeepsDag(None, None, None)(dags[i]) {
      assert ByActive(None)(dags[i]) && ByPaused(None)(dags[i]) && BySearch(None)(dags[i]);
    }
    FilterKeepsAll(KeepsDag(None, None, None), dags);
  }

  /** A DAG whose flag is null is dropped whenever that flag is filtered on, whatever the value asked for. */
  lemma NullFlagsNeverMatch(dags: seq<Dag>, flag: bool, search: Option<string>)
    ensures forall i :: 0 <= i < |FilterDags(dags, Some(flag), None, search)| ==>
      FilterDags(dags, Some(flag), None, search)[i].isActive == Some(flag)
    ensures forall i :: 0 <= i < |FilterDags(dags, None, Some(flag), search)| ==>
      FilterDags(dags, None, Some(flag), search)[i].isPaused == Some(flag)
  {
  }

  /** A DAG is kept exactly when it satisfies every given filter; the order of the list is kept. */
  lemma FilterDagsExact(dags: seq<Dag>, isActive: Option<bool>, isPaused: Option<bool>, search: Option<string>, d: Dag)
    ensures d in FilterDags(dags, isActive, isPaused, search) <==> d in dags && KeepsDag(isActive, isPaused, search)(d)
    ensures Subsequence(FilterDags(dags, isActive, isPaused, search), dags)
  {
    FilterIsSubsequence(KeepsDag(isActive, isPaused, search), dags);
  }

  /**
   * The range check of `ArrayList.subList`: a negative start is an
   * `IndexOutOfBoundsException`, an end before the start an
   * `IllegalArgumentException` (an end past the size cannot occur here).
   */
  function SubListError(from: int, to: int): (e: AppException)
    ensures from < 0 ==> e == Runtime(IndexOutOfBounds, Some("fromIndex = " + ShowInt(from)))
    ensures 0 <= from ==> e.Runtime? && e.kind == IllegalArgument
  {
    if from < 0 then Runtime(IndexOutOfBounds, Some("fromIndex = " + ShowInt(from)))
    else Runtime(IllegalArgument, Some("fromIndex(" + ShowInt(from) + ") > toIndex(" + ShowInt(to) + ")"))
  }

  /**
   * The page of `getDags` exactly as written: `fromIndex = page * size` and
   * `fromIndex + size` are `int` expressions and wrap around.
   */
  function PageAsWritten(filtered: seq<Dag>, page: int, size: int): (r: Result<seq<Dag>, AppException>)
    requires IsInt(page) && IsInt(size) && |filtered| <= INT_MAX
    ensures r.Ok? ==> |r.value| <= if size < 0 then 0 else size
    ensures r.Ok? && r.value != [] ==>
      0 <= Wrap(page * size) && Wrap(page * size) + |r.value| <= |filtered|
      && r.value == filtered[Wrap(page * size) .. Wrap(page * size) + |r.value|]
    ensures Wrap(page * size) >= |filtered| ==> r == Ok([])
    ensures Wrap(page * size) < 0 ==> r == Err(SubListError(Wrap(page * size), Min(Wrap(Wrap(page * size) + size), |filtered|)))
  {
    var total := |filtered|;
    var from := Wrap(page * size);
    var to := Min(Wrap(from + size), total);
    if from < total then
      if 0 <= from <= to then Ok(filtered[from..to]) else Err(SubListError(from, to))
    else Ok([])
  }

  /** The page as evidently intended: the same arithmetic without wrap-around. */
  function PageIntended(filtered: seq<Dag>, page: int, size: int): (r: Result<seq<Dag>, AppException>)
    ensures 0 <= page && 0 <= size ==> r == Ok(Page(filtered, page, size))
    ensures page * size < 0 ==> r == Err(Runtime(IndexOutOfBounds, Some("fromIndex = " + ShowInt(page * size))))
    ensures 0 <= page * size < |filtered| && size < 0 ==> r.Err? && r.error.Runtime? && r.error.kind == IllegalArgument
    ensures r.Ok? ==> |r.value| <= if size < 0 then 0 else size
    ensures r.Ok? ==> forall d :: d in r.value ==> d in filtered
  {
    var total := |filtered|;
    var from := page * size;
    var to := Min(from + size, total);
    if from < total then
      if 0 <= from <= to then Ok(filtered[from..to]) else Err(SubListError(from, to))
    else Ok([])
  }

  /** Within `int` range the two agree: the discrepancy is only the wrap-around. */
  lemma PageAgreesWithoutOverflow(filtered: seq<Dag>, page: int, size: int)
    requires IsInt(page) && IsInt(size) && |filtered| <= INT_MAX
    requires IsInt(page * size) && IsInt(page * size + size)
    ensures PageAsWritten(filtered, page, size) == PageIntended(filtered, page, size)
  {
  }

  lemma AgreesWhereNoOverflow(filtered: seq<Dag>, page: int, size: int)
    requires IsInt(page) && IsInt(size) && |filtered| <= INT_MAX
    ensures IsInt(page * size) && IsInt(page * size + size) ==>
      PageAsWritten(filtered, page, size) == PageIntended(filtered, page, size)
  {
    if IsInt(page * size) && IsInt(page * size + size) {
      PageAgreesWithoutOverflow(filtered, page, size);
    }
  }

  /**
   * Page 429496730 of size 10 over five DAGs: `page * size` wraps to 4, so
   * the controller returns the fifth DAG instead of an empty page.
   */
  lemma PageWrapsAround(filtered: seq<Dag>)
    requires |filtered| == 5
    ensures PageAsWritten(filtered, 429496730, 10) == Ok([filtered[4]])
    ensures PageIntended(filtered, 429496730, 10) == Ok([])
  {
    assert Wrap(429496730 * 10) == 4;
    assert filtered[4..5] == [filtered[4]];
  }

  /**
   * `getDags` as written: the upstream error, or the page of the filtered
   * DAGs that the `int` arithmetic selects, with their total count. Where
   * that arithmetic does not overflow it is the intended page.
   */
  function GetDags(reply: Reply<DagCollection>, isActive: Option<bool>, isPaused: Option<bool>, search: Option<string>,
                   page: int, size: int): (r: Result<DagCollection, AppException>)
    requires IsInt(page) && IsInt(size)
    requires reply.Success? ==> |reply.value.dags| <= INT_MAX
    ensures !reply.Success? ==> r == Err(Dags.ListDagsOutcome(reply).error)
    ensures reply.Success? && 0 <= page && 0 <= size && IsInt(page * size) && IsInt(page * size + size) ==>
      r == Ok(DagCollection(Page(FilterDags(reply.value.dags, isActive, isPaused, search), page, size),
                            Some(|FilterDags(reply.value.dags, isActive, isPaused, search)|)))
    ensures r.Ok? ==> r.value.totalEntries == Some(|FilterDags(reply.value.dags, isActive, isPaused, search)|)
    ensures r.Ok? ==> forall i :: 0 <= i < |r.value.dags| ==> KeepsDag(isActive, isPaused, search)(r.value.dags[i])
  {
    if !reply.Success? then Err(Dags.ListDagsOutcome(reply).error)
    else
      var filtered := FilterDags(reply.value.dags, isActive, isPaused, search);
      var paged := PageAsWritten(filtered, page, size);
      PagedAsWritten(filtered, KeepsDag(isActive, isPaused, search), page, size);
      if paged.Err? then Err(paged.error)
      else Ok(DagCollection(paged.value, Some(|filtered|)))
  }

  /** What the page as written keeps of a filtered list, and that it is the intended page without overflow. */
  lemma PagedAsWritten(filtered: seq<Dag>, keep: Dag -> bool, page: int, size: int)
    requires IsInt(page) && IsInt(size) && |filtered| <= INT_MAX
    requires forall i :: 0 <= i < |filtered| ==> keep(filtered[i])
    ensures var paged := PageAsWritten(filtered, page, size);
      paged.Ok? ==> forall i :: 0 <= i < |paged.value| ==> keep(paged.value[i])
    ensures 0 <= page && 0 <= size && IsInt(page * size) && IsInt(page * size + size) ==>
      PageAsWritten(filtered, page, size) == Ok(Page(filtered, page, size))
  {
    var paged := PageAsWritten(filtered, page, size);
    AgreesWhereNoOverflow(filtered, page, size);
    if paged.Ok? {
      PageKept(filtered, Wrap(page * size), paged.value);
      KeptAfterPaging(filtered, keep, paged.value);
    }
  }

  /** Five matching DAGs, page 429496730 of size 10: as written the answer is the fifth DAG, as intended an empty page. */
  lemma GetDagsWrapsAround(dags: seq<Dag>)
    requires |dags| == 5
    ensures GetDags(Success(DagCollection(dags, None)), None, None, None, 429496730, 10)
         == Ok(DagCollection([dags[4]], Some(5)))
    ensures PageIntended(FilterDags(dags, None, None, None), 429496730, 10) == Ok([])
  {
    NoFilterKeepsAll(dags);
    PageWrapsAround(dags);
  }

  /** A contiguous run of a list holds only elements of that list. */
  lemma PageKept(filtered: seq<Dag>, from: int, paged: seq<Dag>)
    requires paged != [] ==> 0 <= from && from + |paged| <= |filtered| && paged == filtered[from .. from + |paged|]
    ensures forall d :: d in paged ==> d in filtered
  {
    forall d | d in paged ensures d in filtered {
      var i :| 0 <= i < |paged| && paged[i] == d;
      assert filtered[from + i] == d;
    }
  }

  /** Every element of a list that only kept elements satisfying `keep` also satisfies it. */
  lemma KeptAfterPaging(filtered: seq<Dag>, keep: Dag -> bool, paged: seq<Dag>)
    requires forall i :: 0 <= i < |filtered| ==> keep(filtered[i])
    requires forall d :: d in paged ==> d in filtered
    ensures forall i :: 0 <= i < |paged| ==> keep(paged[i])
  {
    forall i | 0 <= i < |paged| ensures keep(paged[i]) {
      assert paged[i] in paged;
      var j :| 0 <= j < |filtered| && filtered[j] == paged[i];
    }
  }

  /**
   * `deleteDag`: a null or blank id is rejected before the service is
   * called; otherwise the service's delete runs.
   */
  method DeleteDag(service: Dags.DagService, dagId: Option<string>, ctx: SecurityContext, now: int,
                   storage: StorageOutcome, reply: Reply<()>)
    returns (r: Result<(), AppException>)
    requires service.Valid()
    modifies service.audit, service.effects
    ensures service.Valid()
    ensures MissingDagId(dagId) ==> r == Err(DAG_ID_ERROR)
    ensures MissingDagId(dagId) ==> service.audit.rows == old(service.audit.rows)
    ensures MissingDagId(dagId) ==> service.effects.events == old(service.effects.events)
    ensures !MissingDagId(dagId) ==>
      r == Dags.DeleteDagOutcome(dagId.value,
             Dags.DagAuditError(ctx, dagId.value, Delete, "Deleted DAG: " + dagId.value, now, storage), reply)
  {
    if MissingDagId(dagId) {
      r := Err(DAG_ID_ERROR);
    } else {
      r := service.DeleteDag(dagId.value, ctx, now, storage, reply);
    }
  }

  /** Behind the guard, the audit row of a delete never fails for want of a DAG id. */
  lemma GuardCoversAuditCheck(dagId: Option<string>, ctx: SecurityContext, now: int, storage: StorageOutcome)
    requires !MissingDagId(dagId)
    ensures Dags.DagAuditError(ctx, dagId.value, Delete, "Deleted DAG: " + dagId.value, now, storage) != Some(DAG_ID_ERROR)
  {
  }
}

/**
 * `DagRuns`: the run table of one DAG — its client-side filters, the
 * per-state counters, the state colours and the defaults of the
 * create-run dialog.
 */
module DagRuns {
  import opened Wrappers
  import opened JavaInt
  import opened Seqs
  import opened Text
  import opened StatusChip
  import UiDagRunService

  /** The fields of a run the table reads. */
  datatype UiDagRun = UiDagRun(dagRunId: string, state: string)

  /** The filter panel: an empty field filters nothing. */
  datatype Filters = Filters(state: string, dagRunId: string)

  const NO_FILTERS := Filters("", "")

  /** One run passes the panel: exact state, and case-insensitive run-id substring. */
  function KeepsRun(filters: Filters): UiDagRun -> bool
  {
    (run: UiDagRun) =>
      (filters.state == "" || run.state == filters.state)
      && (filters.dagRunId == "" || ContainsIgnoreCase(run.dagRunId, filters.dagRunId))
  }

  /** `getFilteredDagRuns`. */
  function FilteredDagRuns(runs: seq<UiDagRun>, filters: Filters): (r: seq<UiDagRun>)
    ensures |r| <= |runs|
    ensures forall x :: x in r <==>
      x in runs && (filters.state == "" || x.state == filters.state)
      && (filters.dagRunId == "" || ContainsIgnoreCase(x.dagRunId, filters.dagRunId))
  {
    Filter(KeepsRun(filters), runs)
  }

  /** The table keeps the server's order: the filtered runs are a subsequence of the runs. */
  lemma FilteredKeepsOrder(runs: seq<UiDagRun>, filters: Filters)
    ensures Subsequence(FilteredDagRuns(runs, filters), runs)
  {
    FilterIsSubsequence(KeepsRun(filters), runs);
  }

  /** With both fields empty every run is shown, in order. */
  lemma EmptyFiltersKeepAll(runs: seq<UiDagRun>)
    ensures FilteredDagRuns(runs, NO_FILTERS) == runs
  {
    FilterKeepsAll(KeepsRun(NO_FILTERS), runs);
  }

  // The counters above the table

  function HasState(state: string): UiDagRun -> bool
  {
    (run: UiDagRun) => run.state == state
  }

  datatype StatusCounts = StatusCounts(all: nat, queued: nat, running: nat, success: nat, failed: nat)

  predicate Counted(run: UiDagRun)
  {
    run.state == "queued" || run.state == "running" || run.state == "success" || run.state == "failed"
  }

  /**
   * `runStatusCounts`: `all` is the number of runs and the four state
   * counters never count a run twice, so they add up to at most `all`, and
   * to exactly `all` when every run is in one of the four states.
   */
  function RunStatusCounts(runs: seq<UiDagRun>): (c: StatusCounts)
    ensures c.all == |runs|
    ensures c.queued == |set i | 0 <= i < |runs| && runs[i].state == "queued"|
    ensures c.running == |set i | 0 <= i < |runs| && runs[i].state == "running"|
    ensures c.success == |set i | 0 <= i < |runs| && runs[i].state == "success"|
    ensures c.failed == |set i | 0 <= i < |runs| && runs[i].state == "failed"|
    ensures c.queued + c.running + c.success + c.failed <= c.all
    ensures (forall i :: 0 <= i < |runs| ==> Counted(runs[i])) ==>
      c.queued + c.running + c.success + c.failed == c.all
  {
    CountsAddUp(runs);
    StateCount(runs, "queued");
    StateCount(runs, "running");
    StateCount(runs, "success");
    StateCount(runs, "failed");
    StatusCounts(|runs|, Count(HasState("queued"), runs), Count(HasState("running"), runs),
                 Count(HasState("success"), runs), Count(HasState("failed"), runs))
  }

  /** The count of a state is the number of positions holding a run in that state. */
  lemma StateCount(runs: seq<UiDagRun>, state: string)
    ensures Count(HasState(state), runs) == |set i | 0 <= i < |runs| && runs[i].state == state|
  {
    assert Positions(HasState(state), runs) == set i | 0 <= i < |runs| && runs[i].state == state;
  }

  lemma {:induction false} CountsAddUp(runs: seq<UiDagRun>)
    ensures Count(HasState("queued"), runs) + Count(HasState("running"), runs)
      + Count(HasState("success"), runs) + Count(HasState("failed"), runs) <= |runs|
    ensures (forall i :: 0 <= i < |runs| ==> Counted(runs[i])) ==>
      Count(HasState("queued"), runs) + Count(HasState("running"), runs)
      + Count(HasState("success"), runs) + Count(HasState("failed"), runs) == |runs|
  {
    if runs != [] {
      var init, x := runs[..|runs| - 1], runs[|runs| - 1];
      assert runs == init + [x];
      CountsAddUp(init);
      CountStep(HasState("queued"), init, x);
      CountStep(HasState("running"), init, x);
      CountStep(HasState("success"), init, x);
      CountStep(HasState("failed"), init, x);
    }
  }

  /** `getStateColor` of the run table: only success, running and failed have colours, in any letter case. */
  function RunStateColour(state: string): (c: Colour)
    ensures c in {Success, Info, Error, Default}
    ensures c == Success <==> Lower(state) == "success"
    ensures c == Info <==> Lower(state) == "running"
    ensures c == Error <==> Lower(state) == "failed"
  {
    var lowered := Lower(state);
    if lowered == "success" then Success
    else if lowered == "running" then Info
    else if lowered == "failed" then Error
    else Default
  }

  /** The run table colours a state as the status chip does, except the chip's own queued and upstream-failed colours. */
  lemma RunColourAgreesWithChip(state: string)
    ensures ChipColour(Some(state)) in {Success, Info, Error, Default} ==> RunStateColour(state) == ChipColour(Some(state))
    ensures ChipColour(Some(state)) in {Warning, Secondary} ==> RunStateColour(state) == Default
  {
  }

  // The create-run dialog

  const MANUAL_PREFIX := "manual_"
  const DEFAULT_MESSAGE := "Triggered from UI"
  const FRONTEND_SOURCE := "frontend_app"

  /** The dialog's fields; `startDate` is given as the ISO text of the chosen date. */
  datatype RunConfig = RunConfig(environment: string, customParam: string, priority: int, notes: string,
                                 startDate: string, runId: string)

  /** The entered run id, or `manual_<epoch milliseconds>` when the field is empty. */
  function RunIdOrDefault(entered: string, nowMs: int): (id: string)
    ensures id != ""
    ensures entered != "" ==> id == entered
    ensures entered == "" ==> |id| > |MANUAL_PREFIX| && id[..|MANUAL_PREFIX|] == MANUAL_PREFIX
  {
    if entered != "" then entered else MANUAL_PREFIX + ShowInt(nowMs)
  }

  /** A generated run id carries the time it was made: its suffix parses back to the clock value. */
  lemma DefaultRunIdCarriesTime(nowMs: int)
    requires LONG_MIN <= nowMs <= LONG_MAX
    ensures ParseLong(RunIdOrDefault("", nowMs)[|MANUAL_PREFIX|..]) == Some(nowMs)
  {
    assert RunIdOrDefault("", nowMs)[|MANUAL_PREFIX|..] == ShowInt(nowMs);
    ParseShowRoundTrip(nowMs);
  }

  /** Generated run ids made at different milliseconds differ. */
  lemma DefaultRunIdsDiffer(a: int, b: int)
    requires a != b
    ensures RunIdOrDefault("", a) != RunIdOrDefault("", b)
  {
    if RunIdOrDefault("", a) == RunIdOrDefault("", b) {
      assert RunIdOrDefault("", a)[|MANUAL_PREFIX|..] == ShowInt(a);
      assert RunIdOrDefault("", b)[|MANUAL_PREFIX|..] == ShowInt(b);
      ShowIntInjective(a, b);
    }
  }

  /** `notes || 'Triggered from UI'`. */
  function ConfMessage(notes: string): (message: string)
    ensures message != ""
    ensures notes != "" ==> message == notes
    ensures notes == "" ==> message == DEFAULT_MESSAGE
  {
    if notes != "" then notes else DEFAULT_MESSAGE
  }

  /**
   * The parameters `handleCreateRun` hands to `createDagRun`, at clock
   * value `nowMs` and with `triggerIso` as the ISO text of that moment.
   */
  function CreateRunParams(config: RunConfig, nowMs: int, triggerIso: string): UiDagRunService.CreateParams
  {
    var parameters := [("source", UiDagRunService.Str(FRONTEND_SOURCE)),
                       ("environment", UiDagRunService.Str(config.environment)),
                       ("custom_param", UiDagRunService.Str(config.customParam)),
                       ("priority", UiDagRunService.Num(config.priority)),
                       ("trigger_time", UiDagRunService.Str(triggerIso))];
    UiDagRunService.CreateParams(RunIdOrDefault(config.runId, nowMs), config.startDate,
                                 Some(UiDagRunService.Conf(ConfMessage(config.notes), parameters)), None, None)
  }

  /**
   * The body the dialog finally posts: a non-empty run id (the entered one
   * when given), a non-empty message (the notes when given), the
   * `frontend_app` source first among the parameters, an external trigger,
   * and neither note nor state.
   */
  lemma CreatedRunPayload(config: RunConfig, nowMs: int, triggerIso: string)
    ensures var p := UiDagRunService.CreateRunPayload(CreateRunParams(config, nowMs, triggerIso), config.startDate);
      p.dagRunId != "" && (config.runId != "" ==> p.dagRunId == config.runId)
      && p.conf.message != "" && (config.notes != "" ==> p.conf.message == config.notes)
      && |p.conf.parameters| == 5 && p.conf.parameters[0] == ("source", UiDagRunService.Str(FRONTEND_SOURCE))
      && p.conf.parameters[3] == ("priority", UiDagRunService.Num(config.priority))
      && p.externalTrigger && p.note.None? && p.state.None?
  {
  }

  // The component's state

  /** The server's answer to the runs query: a bare array, or a collection whose list may be missing. */
  datatype RunsBody = RunArray(runs: seq<UiDagRun>) | RunCollection(dagRuns: Option<seq<UiDagRun>>)

  const FETCH_PREFIX := "Error fetching DAG runs: "

  class DagRunsView {
    var dagRuns: seq<UiDagRun>
    var filters: Filters
    var error: Option<string>
    var loading: bool

    constructor ()
      ensures dagRuns == [] && filters == NO_FILTERS && error.None? && !loading
    {
      dagRuns := [];
      filters := NO_FILTERS;
      error := None;
      loading := false;
    }

    /** `handleFilterChange`: the named field takes the value; the other keeps its own. */
    method HandleFilterChange(name: string, value: string)
      modifies this
      ensures name == "state" ==> filters == old(filters).(state := value)
      ensures name == "dagRunId" ==> filters == old(filters).(dagRunId := value)
      ensures name != "state" && name != "dagRunId" ==> filters == old(filters)
      ensures dagRuns == old(dagRuns) && error == old(error) && loading == old(loading)
    {
      if name == "state" {
        filters := filters.(state := value);
      } else if name == "dagRunId" {
        filters := filters.(dagRunId := value);
      }
    }

    /**
     * `fetchDagRuns` with the server's answer, or the extracted error
     * message: without a DAG id nothing is asked; the state filter is sent
     * unless it is `all`; a missing run list reads as empty.
     */
    method FetchDagRuns(dagId: Option<string>, reply: Result<RunsBody, string>) returns (stateParam: Option<Option<string>>)
      modifies this
      ensures filters == old(filters)
      ensures dagId.None? || dagId == Some("") ==>
        stateParam.None? && dagRuns == old(dagRuns) && error == old(error) && loading == old(loading)
      ensures dagId.Some? && dagId.value != "" ==>
        stateParam == Some(if filters.state != "all" then Some(filters.state) else None) && !loading
      ensures dagId.Some? && dagId.value != "" && reply.Ok? ==> error.None? && dagRuns == match reply.value
        case RunArray(runs) => runs
        case RunCollection(list) => if list.Some? then list.value else []
      ensures dagId.Some? && dagId.value != "" && reply.Err? ==>
        error == Some(FETCH_PREFIX + reply.error) && dagRuns == old(dagRuns)
    {
      if dagId.None? || dagId.value == "" {
        return None;
      }
      loading := true;
      stateParam := Some(if filters.state != "all" then Some(filters.state) else None);
      if reply.Ok? {
        dagRuns := match reply.value
          case RunArray(runs) => runs
          case RunCollection(list) => if list.Some? then list.value else [];
        error := None;
      } else {
        error := Some(FETCH_PREFIX + reply.error);
      }
      loading := false;
    }
  }
}

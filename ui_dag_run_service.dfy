/**
 * `dagRunService.ts`: the JSON bodies the UI sends when it creates a run,
 * changes a run's state or clears a run.
 */
module UiDagRunService {
  import opened Wrappers
  import opened Text

  /** A JSON value of a `conf` parameter: text or a number. */
  datatype ConfValue = Str(text: string) | Num(number: int)

  /** A run's `conf`: the message and free-form parameters. */
  datatype Conf = Conf(message: string, parameters: seq<(string, ConfValue)>)

  /** `DagRunCreateParams`. */
  datatype CreateParams = CreateParams(runId: string, logicalDate: string, conf: Option<Conf>,
                                       note: Option<string>, state: Option<string>)

  /** The body posted to `/dags/{dagId}/dagRuns`; an absent `note` or `state` is a key left out. */
  datatype CreatePayload = CreatePayload(dagRunId: string, logicalDate: string, conf: Conf, externalTrigger: bool,
                                         note: Option<string>, state: Option<string>)

  const DEFAULT_CONF := Conf("Triggered from UI", [])

  predicate Truthy(s: Option<string>)
  {
    s.Some? && s.value != ""
  }

  // Dropping the milliseconds

  /** `\.\d{3}` matches at `i`. */
  predicate MillisAt(s: string, i: int)
  {
    0 <= i && i + 4 <= |s| && s[i] == '.' && IsDigit(s[i + 1]) && IsDigit(s[i + 2]) && IsDigit(s[i + 3])
  }

  /** The first match at or after `from`, or -1. */
  function FirstMillis(s: string, from: nat): (k: int)
    ensures k == -1 || (from <= k && MillisAt(s, k))
    ensures k == -1 ==> forall i :: from <= i ==> !MillisAt(s, i)
    ensures k >= 0 ==> forall i :: from <= i < k ==> !MillisAt(s, i)
    decreases |s| - from
  {
    if from + 4 > |s| then -1
    else if MillisAt(s, from) then from
    else FirstMillis(s, from + 1)
  }

  /** `.replace(/\.\d{3}/, '')`: the first `.ddd` group is cut out; without one the text is unchanged. */
  function StripMillis(s: string): (r: string)
    ensures FirstMillis(s, 0) < 0 ==> r == s
    ensures FirstMillis(s, 0) >= 0 ==> var k := FirstMillis(s, 0); r == s[..k] + s[k + 4..] && |r| == |s| - 4
  {
    var k := FirstMillis(s, 0);
    if k < 0 then s else s[..k] + s[k + 4..]
  }

  /** An ISO timestamp `<date-and-time>.<ms>Z` loses exactly its milliseconds. */
  lemma StripMillisOfIso(stamp: string, ms: string, zone: string)
    requires forall i :: 0 <= i < |stamp| ==> stamp[i] != '.'
    requires |ms| == 3 && AllDigits(ms)
    ensures StripMillis(stamp + "." + ms + zone) == stamp + zone
  {
    var s := stamp + "." + ms + zone;
    assert MillisAt(s, |stamp|);
    forall i | 0 <= i < |stamp| ensures !MillisAt(s, i) {
      assert s[i] == stamp[i];
    }
    assert FirstMillis(s, 0) == |stamp|;
    assert s[..|stamp|] == stamp;
    assert s[|stamp| + 4..] == zone;
  }

  // Request bodies

  /**
   * `createDagRun`'s payload, given `new Date(logicalDate).toISOString()`
   * as `iso`: the run id, the date without milliseconds, the conf or the
   * default conf, `external_trigger` always true, and `note` and `state`
   * only when they are non-empty.
   */
  function CreateRunPayload(params: CreateParams, iso: string): (p: CreatePayload)
    ensures p.dagRunId == params.runId && p.externalTrigger
    ensures p.logicalDate == StripMillis(iso)
    ensures params.conf.None? ==> p.conf == DEFAULT_CONF
    ensures params.conf.Some? ==> p.conf == params.conf.value
    ensures p.note.Some? <==> Truthy(params.note)
    ensures p.note.Some? ==> p.note == params.note
    ensures p.state.Some? <==> Truthy(params.state)
    ensures p.state.Some? ==> p.state == params.state
  {
    CreatePayload(params.runId, StripMillis(iso), if params.conf.Some? then params.conf.value else DEFAULT_CONF, true,
                  if Truthy(params.note) then params.note else None,
                  if Truthy(params.state) then params.state else None)
  }

  /** The body of `updateDagRunState`: the one key `state`, nothing else. */
  datatype StateBody = StateBody(state: string)

  /** `DagRunClearParams`; an absent flag is a key left out. */
  datatype ClearParams = ClearParams(dryRun: Option<bool>, resetDagRuns: Option<bool>, onlyFailed: Option<bool>,
                                     onlyRunning: Option<bool>, includeSubdags: Option<bool>,
                                     includeParentdag: Option<bool>)

  /** `{ dry_run: false }`, the default when the caller passes no parameters. */
  const DEFAULT_CLEAR := ClearParams(Some(false), None, None, None, None, None)

  /** The body of `clearDagRun`: the parameters passed, or a dry run switched off. */
  function ClearBody(params: Option<ClearParams>): (b: ClearParams)
    ensures params.None? ==> b == DEFAULT_CLEAR && b.dryRun == Some(false)
    ensures params.Some? ==> b == params.value
  {
    if params.Some? then params.value else DEFAULT_CLEAR
  }
}

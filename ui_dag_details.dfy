/**
 * `DagDetails`: the text shown for a DAG's schedule interval, and the
 * pause toggle that updates the page only once the server has accepted it.
 */
module DagDetails {
  import opened Wrappers
  import opened Text

  /** `TimeDelta` as the server sends it; every field may be missing. */
  datatype TimeDelta = TimeDelta(kind: Option<string>, days: Option<int>, seconds: Option<int>, value: Option<string>)

  const NOT_SCHEDULED := "Not scheduled"
  const CRON_PREFIX := "Cron: "
  const CRON_EXPRESSION := "Cron expression"
  const DAYS := " day(s)"
  const HOURS := " hour(s)"
  const MINUTES := " minute(s)"
  const SECONDS := " second(s)"
  const SEPARATOR := ", "

  predicate TruthyText(s: Option<string>)
  {
    s.Some? && s.value != ""
  }

  predicate TruthyNumber(n: Option<int>)
  {
    n.Some? && n.value != 0
  }

  predicate IsCron(t: TimeDelta)
  {
    t.kind == Some("CronExpression") || t.kind == Some("cron")
  }

  /** JavaScript `a % b` for a positive divisor: the remainder takes the sign of `a`. */
  function JsRem(a: int, b: int): (r: int)
    requires b > 0
    ensures a >= 0 ==> 0 <= r < b && r == a % b
    ensures a < 0 ==> -b < r <= 0 && r == -((-a) % b)
  {
    if a >= 0 then a % b else -((-a) % b)
  }

  /** `Math.floor(s / 3600)`; Dafny's division by a positive number already rounds down. */
  function Hours(s: int): int { s / 3600 }

  /** `Math.floor((s % 3600) / 60)`. */
  function Minutes(s: int): int { JsRem(s, 3600) / 60 }

  /** `s % 60`. */
  function Secs(s: int): int { JsRem(s, 60) }

  /** For a non-negative count the three parts are the usual clock split, and add up to the count. */
  lemma ClockSplit(s: int)
    requires s >= 0
    ensures Hours(s) * 3600 + Minutes(s) * 60 + Secs(s) == s
    ensures 0 <= Minutes(s) < 60 && 0 <= Secs(s) < 60
  {
    var h, r := s / 3600, s % 3600;
    var q, t := r / 60, r % 60;
    assert JsRem(s, 3600) == r && JsRem(s, 60) == s % 60;
    assert s == 60 * (60 * h + q) + t;
    EuclidUnique(s, 60 * h + q, t);
  }

  /** A quotient and remainder by 60 are the only ones. */
  lemma EuclidUnique(s: int, n: int, t: int)
    requires s == 60 * n + t && 0 <= t < 60
    ensures s % 60 == t
  {
  }

  /**
   * The parts that are joined for a seconds interval: hours when there
   * are any, minutes when there are any, and the remaining seconds only
   * when there are neither hours nor minutes.
   */
  function SecondsParts(s: int): (parts: seq<string>)
    ensures |parts| <= 2
    ensures (ShowInt(Hours(s)) + HOURS in parts) <==> Hours(s) != 0
    ensures (ShowInt(Minutes(s)) + MINUTES in parts) <==> Minutes(s) != 0
    ensures (ShowInt(Secs(s)) + SECONDS in parts) <==> Secs(s) != 0 && Hours(s) == 0 && Minutes(s) == 0
  {
    var h := ShowInt(Hours(s)) + HOURS;
    var m := ShowInt(Minutes(s)) + MINUTES;
    var x := ShowInt(Secs(s)) + SECONDS;
    SuffixesDiffer(ShowInt(Hours(s)), HOURS, ShowInt(Minutes(s)), MINUTES);
    SuffixesDiffer(ShowInt(Hours(s)), HOURS, ShowInt(Secs(s)), SECONDS);
    SuffixesDiffer(ShowInt(Minutes(s)), MINUTES, ShowInt(Secs(s)), SECONDS);
    (if Hours(s) != 0 then [h] else [])
    + (if Minutes(s) != 0 then [m] else [])
    + (if Secs(s) != 0 && Hours(s) == 0 && Minutes(s) == 0 then [x] else [])
  }

  /** Texts with different unit suffixes are different texts. */
  lemma SuffixesDiffer(a: string, unitA: string, b: string, unitB: string)
    requires unitA in {HOURS, MINUTES, SECONDS} && unitB in {HOURS, MINUTES, SECONDS} && unitA != unitB
    ensures a + unitA != b + unitB
  {
    var x, y := a + unitA, b + unitB;
    assert x[|x| - 4] == unitA[|unitA| - 4];
    assert y[|y| - 4] == unitB[|unitB| - 4];
  }

  /** `parts.join(sep)`. */
  function Join(parts: seq<string>, sep: string): (text: string)
    ensures parts == [] ==> text == ""
    ensures |parts| == 1 ==> text == parts[0]
  {
    if parts == [] then ""
    else if |parts| == 1 then parts[0]
    else parts[0] + sep + Join(parts[1..], sep)
  }

  /** A non-zero number of seconds always produces some text. */
  lemma SecondsTextNonEmpty(s: int)
    requires s != 0
    ensures Join(SecondsParts(s), SEPARATOR) != ""
  {
    var parts := SecondsParts(s);
    if Hours(s) == 0 && Minutes(s) == 0 {
      assert 0 <= s < 3600;
      assert JsRem(s, 3600) == s;
      assert Secs(s) == s;
      assert ShowInt(Secs(s)) + SECONDS in parts;
    } else if Hours(s) != 0 {
      assert ShowInt(Hours(s)) + HOURS in parts;
    } else {
      assert ShowInt(Minutes(s)) + MINUTES in parts;
    }
    assert parts != [];
    assert parts[0] != "";
  }

  /** An hour, a minute and a second render as the hour and the minute: the second is dropped. */
  lemma OneHourOneMinuteOneSecond()
    ensures Join(SecondsParts(3661), SEPARATOR) == "1 hour(s), 1 minute(s)"
  {
    assert Hours(3661) == 1 && Minutes(3661) == 1 && Secs(3661) == 1;
    assert ShowInt(1) == "1";
  }

  /**
   * `formatScheduleInterval`, with `stringified` standing for
   * `JSON.stringify` of the interval: missing, cron, days, seconds, the
   * type name, and the JSON text, in that order of precedence.
   */
  function ScheduleText(interval: Option<TimeDelta>, stringified: string): string
  {
    if interval.None? then NOT_SCHEDULED
    else
      var t := interval.value;
      if IsCron(t) then (if TruthyText(t.value) then CRON_PREFIX + t.value.value else CRON_EXPRESSION)
      else if TruthyNumber(t.days) then ShowInt(t.days.value) + DAYS
      else if TruthyNumber(t.seconds) then Join(SecondsParts(t.seconds.value), SEPARATOR)
      else if TruthyText(t.kind) then t.kind.value
      else stringified
  }

  /** Days take precedence: the seconds of a delta with days never show. */
  lemma DaysBeforeSeconds(t: TimeDelta, seconds: Option<int>, stringified: string)
    requires !IsCron(t) && TruthyNumber(t.days)
    ensures ScheduleText(Some(t), stringified) == ScheduleText(Some(t.(seconds := seconds)), stringified)
    ensures ScheduleText(Some(t), stringified) == ShowInt(t.days.value) + DAYS
  {
  }

  /** A cron interval is always labelled as cron, whatever else it carries. */
  lemma CronLabelled(t: TimeDelta, stringified: string)
    requires IsCron(t)
    ensures var text := ScheduleText(Some(t), stringified);
      text == CRON_EXPRESSION || (|text| > |CRON_PREFIX| && text[..|CRON_PREFIX|] == CRON_PREFIX)
  {
  }

  /** A delta of non-zero seconds and no days never renders as empty text. */
  lemma SecondsDeltaShown(t: TimeDelta, stringified: string)
    requires !IsCron(t) && !TruthyNumber(t.days) && TruthyNumber(t.seconds)
    ensures ScheduleText(Some(t), stringified) != ""
  {
    SecondsTextNonEmpty(t.seconds.value);
  }

  /** The formatter, building the seconds text by pushing parts as the component does. */
  method FormatScheduleInterval(interval: Option<TimeDelta>, stringified: string) returns (text: string)
    ensures text == ScheduleText(interval, stringified)
  {
    if interval.None? {
      return NOT_SCHEDULED;
    }
    var t := interval.value;
    if IsCron(t) {
      if TruthyText(t.value) {
        return CRON_PREFIX + t.value.value;
      }
      return CRON_EXPRESSION;
    }
    if TruthyNumber(t.days) {
      return ShowInt(t.days.value) + DAYS;
    }
    if TruthyNumber(t.seconds) {
      var s := t.seconds.value;
      var hours := s / 3600;
      var minutes := JsRem(s, 3600) / 60;
      var seconds := JsRem(s, 60);
      var parts: seq<string> := [];
      if hours != 0 {
        parts := parts + [ShowInt(hours) + HOURS];
      }
      if minutes != 0 {
        parts := parts + [ShowInt(minutes) + MINUTES];
      }
      if seconds != 0 && hours == 0 && minutes == 0 {
        parts := parts + [ShowInt(seconds) + SECONDS];
      }
      return Join(parts, SEPARATOR);
    }
    if TruthyText(t.kind) {
      return t.kind.value;
    }
    return stringified;
  }

  // The pause toggle

  /** The fields of `DagDetail` the page changes or guards on. */
  datatype DagDetail = DagDetail(dagId: string, isPaused: bool, isActive: bool, scheduleInterval: Option<TimeDelta>)

  const TOGGLE_PREFIX := "Error toggling DAG state: "

  class DagDetailsView {
    var details: Option<DagDetail>
    var error: Option<string>

    constructor ()
      ensures details.None? && error.None?
    {
      details := None;
      error := None;
    }

    /**
     * `handleTogglePause` with the service call's outcome (or the extracted
     * error message): the request asks for the opposite of the shown
     * state, and the shown state flips only when the call succeeded.
     */
    method HandleTogglePause(dagId: Option<string>, outcome: Result<(), string>) returns (request: Option<bool>)
      modifies this
      ensures dagId.None? || dagId == Some("") || old(details).None? ==>
        request.None? && details == old(details) && error == old(error)
      ensures dagId.Some? && dagId.value != "" && old(details).Some? ==>
        request == Some(!old(details).value.isPaused)
      ensures request.Some? && outcome.Ok? ==>
        details == Some(old(details).value.(isPaused := request.value)) && error == old(error)
      ensures request.Some? && outcome.Err? ==>
        details == old(details) && error == Some(TOGGLE_PREFIX + outcome.error)
    {
      if dagId.None? || dagId.value == "" || details.None? {
        return None;
      }
      var d := details.value;
      request := Some(!d.isPaused);
      if outcome.Ok? {
        details := Some(d.(isPaused := !d.isPaused));
      } else {
        error := Some(TOGGLE_PREFIX + outcome.error);
      }
    }
  }
}

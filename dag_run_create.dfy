/**
 * `DagRunCreate`: the request body of a new DAG run. Airflow renamed
 * `execution_date` to `logical_date`; the two setters keep both fields
 * equal, so whichever the client sends (and whichever is set last) wins.
 */
module DagRunCreate {
  import opened Wrappers

  /** A `ZonedDateTime`, kept as its rendering. */
  type DateTime = string

  /** The `conf` map, with its values kept as their JSON text. */
  type Conf = map<string, string>

  class DagRunCreate {
    var dagRunId: Option<string>
    var logicalDate: Option<DateTime>
    var executionDate: Option<DateTime>
    var dataIntervalStart: Option<DateTime>
    var dataIntervalEnd: Option<DateTime>
    var conf: Option<Conf>
    var note: Option<string>

    /** The two date fields always agree. */
    ghost predicate Valid()
      reads this
    {
      logicalDate == executionDate
    }

    constructor ()
      ensures Valid()
      ensures dagRunId == None && logicalDate == None && executionDate == None
      ensures dataIntervalStart == None && dataIntervalEnd == None && conf == None && note == None
    {
      dagRunId, logicalDate, executionDate := None, None, None;
      dataIntervalStart, dataIntervalEnd, conf, note := None, None, None, None;
    }

    method SetLogicalDate(date: Option<DateTime>)
      modifies this
      ensures Valid()
      ensures logicalDate == date && executionDate == date
      ensures dagRunId == old(dagRunId) && note == old(note) && conf == old(conf)
      ensures dataIntervalStart == old(dataIntervalStart) && dataIntervalEnd == old(dataIntervalEnd)
    {
      logicalDate := date;
      executionDate := date;
    }

    method SetExecutionDate(date: Option<DateTime>)
      modifies this
      ensures Valid()
      ensures logicalDate == date && executionDate == date
      ensures dagRunId == old(dagRunId) && note == old(note) && conf == old(conf)
      ensures dataIntervalStart == old(dataIntervalStart) && dataIntervalEnd == old(dataIntervalEnd)
    {
      executionDate := date;
      logicalDate := date;
    }

    /** The generated setter of `dagRunId`; the other generated setters are alike. */
    method SetDagRunId(id: Option<string>)
      requires Valid()
      modifies this
      ensures Valid()
      ensures dagRunId == id
      ensures logicalDate == old(logicalDate) && executionDate == old(executionDate) && note == old(note) && conf == old(conf)
      ensures dataIntervalStart == old(dataIntervalStart) && dataIntervalEnd == old(dataIntervalEnd)
    {
      dagRunId := id;
    }

    method SetNote(text: Option<string>)
      requires Valid()
      modifies this
      ensures Valid()
      ensures note == text
      ensures dagRunId == old(dagRunId) && logicalDate == old(logicalDate) && executionDate == old(executionDate)
      ensures conf == old(conf) && dataIntervalStart == old(dataIntervalStart) && dataIntervalEnd == old(dataIntervalEnd)
    {
      note := text;
    }
  }
}

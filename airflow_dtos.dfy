/** The fields of Airflow's JSON records that the proxy's logic reads. */
module AirflowDtos {
  import opened Wrappers

  datatype Dag = Dag(
    dagId: string,
    description: Option<string>,
    isActive: Option<bool>,
    isPaused: Option<bool>)

  datatype DagCollection = DagCollection(dags: seq<Dag>, totalEntries: Option<int>)

  datatype DagRun = DagRun(dagRunId: Option<string>, state: Option<string>)
}

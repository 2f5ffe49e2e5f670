/**
 * The job steps of the client: waiting for a job, the query job that overwrites a table,
 * and the query job that materializes a query into a destination table.
 */
module Jobs {
  import opened Wrappers
  import opened JavaLang
  import opened Text
  import opened TableModel
  import opened SqlTemplates
  import opened Placement

  /**
   * `waitForJob` as written: its check `completedJob == null && completedJob.getStatus()...`
   * dereferences a missing job and never looks at the status of a present one.
   */
  function WaitForJobAsWritten(outcome: JobOutcome): (r: Result<(), Error>)
    ensures outcome.JobDone? ==> r.Success?
    ensures outcome.JobMissing? ==> r == Failure(NullPointer("completedJob"))
  {
    match outcome
    case JobInterrupted =>
      Failure(RuntimeFailure("Could not copy table from temporary sink to destination table."))
    case JobMissing => Failure(NullPointer("completedJob"))
    case JobDone(_) => Success(())
  }

  /** A job that finished with an error is reported as a success. */
  lemma WaitForJobAsWrittenIgnoresErrors(detail: string)
    ensures WaitForJobAsWritten(JobDone(Some(detail))) == Success(())
  {
  }

  /**
   * `waitForJob` as intended: only a job that finished without error succeeds; a finished
   * job's error becomes an `UncheckedIOException` carrying the error's text, and a job that
   * no longer exists is an error of its own.
   */
  function WaitForJob(outcome: JobOutcome): (r: Result<(), Error>)
    ensures r.Success? <==> outcome == JobDone(None)
    ensures outcome.JobDone? && outcome.error.Some? ==> r == Failure(RuntimeFailure(outcome.error.value))
  {
    match outcome
    case JobInterrupted =>
      Failure(RuntimeFailure("Could not copy table from temporary sink to destination table."))
    case JobMissing => Failure(RuntimeFailure("The job no longer exists"))
    case JobDone(Some(detail)) => Failure(RuntimeFailure(detail))
    case JobDone(None) => Success(())
  }

  /**
   * The job `overwriteDestinationWithTemporary` submits: the MERGE text, in standard SQL,
   * writing to no destination of its own. The caller waits for it.
   */
  function OverwriteJob(temporary: TableId, destination: TableId): (job: QueryJob)
    ensures job.sql == OverwriteSql(temporary, destination)
    ensures job.useLegacySql == Some(false) && job.destination.None?
  {
    QueryJob(SqlFromFormat(MergeFormat, destination, temporary), None, Some(false))
  }

  /** `DestinationTableBuilder`: the loader the materialization cache runs on a miss */
  datatype DestinationTableBuilder = DestinationTableBuilder(sql: string, destination: TableId, expirationMinutes: Int32) {

    /** The query job it submits: the query, writing into the destination table */
    function Job(): (job: QueryJob)
      ensures job.sql == sql && job.destination == Some(destination) && job.useLegacySql.None?
    {
      QueryJob(sql, Some(destination), None)
    }

    /**
     * `createTableFromQuery`: run the job and wait; an interrupted wait, a vanished job or an
     * error status is a failure; otherwise fetch the destination table and push it back with
     * its expiration set to its creation time plus the window. A failing lookup or update goes
     * through as it is; a missing table or creation time is a null dereference.
     */
    function CreateTableFromQuery(service: Service): (r: Result<TableInfo, Error>)
      ensures service.runQueryJob(Job()) == JobInterrupted ==> r == Failure(ServiceError(JobInterruptedMessage))
      ensures service.runQueryJob(Job()) == JobMissing ==> r == Failure(NullPointer("job"))
      ensures service.runQueryJob(Job()).JobDone? && service.runQueryJob(Job()).error.Some? ==>
        r == Failure(ServiceError(service.runQueryJob(Job()).error.value))
      ensures service.runQueryJob(Job()) == JobDone(None) && service.getTable(destination).Failure? ==>
        r == Failure(service.getTable(destination).error)
      ensures service.runQueryJob(Job()) == JobDone(None) && service.getTable(destination) == Success(None) ==>
        r == Failure(NullPointer("createdTable"))
      ensures service.runQueryJob(Job()) == JobDone(None) && Found(service.getTable(destination)) ==>
        var created := service.getTable(destination).value.value;
        && (created.creationTime.None? ==> r == Failure(NullPointer("creationTime")))
        && (created.creationTime.Some? ==>
              r == service.update(created.(expirationTime := Some(MaterializedExpiry(created.creationTime.value, expirationMinutes)))))
      ensures r.Success? ==>
        && service.runQueryJob(Job()) == JobDone(None)
        && Found(service.getTable(destination))
        && service.getTable(destination).value.value.creationTime.Some?
    {
      match service.runQueryJob(Job())
      case JobInterrupted => Failure(ServiceError(JobInterruptedMessage))
      case JobMissing => Failure(NullPointer("job"))
      case JobDone(Some(detail)) => Failure(ServiceError(detail))
      case JobDone(None) =>
        match service.getTable(destination)
        case Failure(e) => Failure(e)
        case Success(None) => Failure(NullPointer("createdTable"))
        case Success(Some(created)) =>
          match created.creationTime
          case None => Failure(NullPointer("creationTime"))
          case Some(creationTime) =>
            var expiry := MaterializedExpiry(creationTime, expirationMinutes);
            service.update(created.(expirationTime := Some(expiry)))
    }
  }

  /** The builder's report of an interrupted wait (the job's id, which it also names, is not modelled) */
  const JobInterruptedMessage: string := "Job has been interrupted"

  /** `materializeTable`'s wrapping of a failed load: it names the SQL and keeps the cause. */
  function MaterializationError(sql: string, cause: Error): (e: Error)
    ensures e.ConnectorError? && e.code == Some(BigQueryViewDestinationTableCreationFailed)
    ensures e.cause == Some(cause) && Contains(e.message, sql)
  {
    ContainsMiddle("Error creating destination table using the following query: [", sql, "]");
    ConnectorError(Some(BigQueryViewDestinationTableCreationFailed),
      "Error creating destination table using the following query: [" + sql + "]", Some(cause))
  }
}

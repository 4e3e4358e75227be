/** The values the Cloud Controller v2 client exchanges with the actor. */
module Ccv2 {

  datatype Option<+T> = None | Some(value: T)

  /** Advisory strings the Cloud Controller attaches to a response; never fatal. */
  type Warnings = seq<string>

  /** An error returned by a client call; the actor hands it on unchanged. */
  datatype ClientError = ClientError(message: string)

  /** The listing filters and operators a query may use. Only the name filter with the
      equality operator is used here; the others are kept as vocabulary only. */
  datatype Filter = NameFilter | OrganizationGUIDFilter | SpaceGUIDFilter
  datatype Operator = EqualOperator | InOperator

  /** One clause of a listing query: `filter operator value`. */
  datatype Query = Query(filter: Filter, operator: Operator, value: string)

  datatype Organization = Organization(guid: string, name: string)

  /** A job's status is the string the Cloud Controller reports. Only `finished` and `failed`
      are terminal: every other status, including the empty one, counts as still running.
      The queued and running constants are kept as vocabulary only. */
  type JobStatus = string
  const JobStatusFailed: JobStatus := "failed"
  const JobStatusFinished: JobStatus := "finished"
  const JobStatusQueued: JobStatus := "queued"
  const JobStatusRunning: JobStatus := "running"

  /** An asynchronous server-side task; `error` is the reason given when it failed. */
  datatype Job = Job(guid: string, status: JobStatus, error: string)

  /** What one client call hands back: a result, its warnings and possibly an error. */
  datatype Response<+T> = Response(result: T, warnings: Warnings, err: Option<ClientError>)
}

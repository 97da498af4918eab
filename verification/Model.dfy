/** Entities of the monitor store. */
module Model {
  import opened Identifiers

  const SECOND: nat := 1_000_000_000
  const MINUTE: nat := 60 * SECOND
  const DEFAULT_MAX_ATTEMPTS: nat := 3

  datatype Option<+T> = None | Some(value: T)

  datatype Error =
    | MonitorNotFound
    | MonitorExists
    | InvalidMonitor
    | JobIDRequired
    | DuplicateJob
    | StaleJob
    | AlreadyProcessing

  datatype Result<+T> = Success(value: T) | Failure(error: Error)

  /** What a check means: a change of any of these is a semantic change. */
  datatype Config = Config(url: string, timeout: int, expected: int)

  datatype Settings = Settings(config: Config, interval: int, enabled: bool)

  datatype Monitor = Monitor(
    config: Config,
    interval: nat,
    enabled: bool,
    nextCheckAt: Time,
    lastStatusCode: int,
    lastCheckedAt: Time)

  datatype Patch = Patch(
    url: Option<string>,
    interval: Option<int>,
    timeout: Option<int>,
    expected: Option<int>,
    enabled: Option<bool>)

  datatype Status = Scheduled | Queued | Processing | Completed | Failed | Dead
  datatype Kind = Periodic | Manual

  datatype Job = Job(
    id: ID,
    monitor: ID,
    kind: Kind,
    scheduledFor: Time,
    status: Status,
    attempt: nat,
    availableAt: Time,
    leaseExpiresAt: Time,
    leaseToken: ID,
    publicationToken: ID)
  {
    predicate Terminal() { status.Completed? || status.Dead? }

    /** Waiting on the publication path: claimed for publication or confirmed as published. */
    predicate Published() { status.Scheduled? || status.Queued? }
  }

  datatype Lease = Lease(job: ID, monitor: ID, attempt: int, token: ID)
  datatype Claim = Claim(job: ID, monitor: ID, attempt: nat, token: ID)
  datatype Incident = Incident(monitor: ID, open: bool, failures: nat)
  datatype CheckRecord = CheckRecord(job: ID, monitor: ID, statusCode: int, success: bool)

  /** The retention bounds (500 checks per monitor, 10,000 for each history), all at least 1. */
  datatype Caps = Caps(checks: nat, processed: nat, jobs: nat, incidents: nat)
  {
    predicate Valid() { checks >= 1 && processed >= 1 && jobs >= 1 && incidents >= 1 }
  }
}

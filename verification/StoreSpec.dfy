/** The monitor store as a value, one total function per locked operation, and the agreement
    between its indexes that every operation keeps. */
module StoreSpec {
  import opened Identifiers
  import opened Model
  import opened Sequences

  datatype Store = Store(
    caps: Caps,
    monitors: map<ID, Monitor>,
    byURL: map<string, ID>,
    checks: map<ID, seq<CheckRecord>>,
    jobs: map<ID, Job>,
    active: map<ID, ID>,
    terminal: seq<ID>,
    incidents: map<ID, Incident>,
    open: map<ID, ID>,
    resolved: seq<ID>,
    processed: seq<ID>)

  const NO_IDS: seq<ID> := []

  function Empty(caps: Caps): Store {
    Store(caps, map[], map[], map[], map[], map[], NO_IDS, map[], map[], NO_IDS, NO_IDS)
  }

  // ------------------------------------------------------------------ index agreement

  ghost predicate UrlsAgree(monitors: map<ID, Monitor>, byURL: map<string, ID>) {
    && (forall m :: m in monitors ==> monitors[m].config.url in byURL && byURL[monitors[m].config.url] == m)
    && (forall u :: u in byURL ==> byURL[u] in monitors && monitors[byURL[u]].config.url == u)
  }

  /** The active map lists exactly the non-terminal jobs, at most one per monitor. */
  ghost predicate ActiveAgrees(jobs: map<ID, Job>, active: map<ID, ID>) {
    && (forall m :: m in active ==>
          active[m] in jobs && jobs[active[m]].monitor == m && !jobs[active[m]].Terminal())
    && (forall j :: j in jobs && !jobs[j].Terminal() ==>
          jobs[j].monitor in active && active[jobs[j].monitor] == j)
  }

  /** A record is filed under its own identifier, and holds a lease token exactly while processing. */
  predicate JobAgrees(j: ID, job: Job) {
    && j != "" && job.id == j
    && (job.leaseToken != "" <==> job.status.Processing?)
    && (job.status.Processing? ==> job.leaseExpiresAt != 0)
    && (job.status.Queued? || job.status.Failed? || job.Terminal() ==> job.leaseExpiresAt == 0)
  }

  ghost predicate JobsAgree(jobs: map<ID, Job>, monitors: set<ID>) {
    forall j :: j in jobs ==> JobAgrees(j, jobs[j]) && jobs[j].monitor in monitors
  }

  /** The open map lists exactly the open incidents. */
  ghost predicate OpenAgrees(incidents: map<ID, Incident>, open: map<ID, ID>) {
    && (forall m :: m in open ==>
          open[m] in incidents && incidents[open[m]].monitor == m && incidents[open[m]].open)
    && (forall i :: i in incidents && incidents[i].open ==>
          incidents[i].monitor in open && open[incidents[i].monitor] == i)
  }

  ghost predicate IncidentsAgree(incidents: map<ID, Incident>, monitors: set<ID>) {
    forall i :: i in incidents ==> incidents[i].monitor in monitors && incidents[i].failures >= 1
  }

  predicate ValidSettings(w: Settings, urlAllowed: bool) {
    && w.config.url != "" && urlAllowed
    && 30 <= w.interval <= 86400
    && 1 <= w.config.timeout <= 60
    && 100 <= w.config.expected <= 599
  }

  predicate MonitorAgrees(m: Monitor) {
    ValidSettings(Settings(m.config, m.interval, m.enabled), true) && m.nextCheckAt != 0
  }

  ghost predicate MonitorsAgree(monitors: map<ID, Monitor>) {
    forall m :: m in monitors ==> MonitorAgrees(monitors[m])
  }

  /** A disabled monitor never has an active periodic job. */
  ghost predicate DisabledAgrees(monitors: map<ID, Monitor>, jobs: map<ID, Job>) {
    forall j :: j in jobs && !jobs[j].Terminal() && jobs[j].kind.Periodic? && jobs[j].monitor in monitors ==>
      monitors[jobs[j].monitor].enabled
  }

  /** Histories are bounded, and a monitor with an open incident has a stored check behind it. */
  ghost predicate ChecksAgree(checks: map<ID, seq<CheckRecord>>, monitors: set<ID>, open: set<ID>, cap: nat) {
    && (forall m :: m in checks ==> m in monitors && 1 <= |checks[m]| <= cap)
    && (forall m :: m in open ==> m in checks)
  }

  ghost predicate WindowsBounded(caps: Caps, terminal: seq<ID>, resolved: seq<ID>, processed: seq<ID>) {
    && caps.Valid()
    && |terminal| <= caps.jobs && |resolved| <= caps.incidents && |processed| <= caps.processed
    && NoDuplicates(processed)
  }

  /** The clauses of the agreement, named so that a proof takes up only those it needs. */
  datatype Clause = Urls | Active | Jobs | Open | Incidents | Monitors | Disabled | Checks | Windows

  ghost predicate ClauseHolds(s: Store, c: Clause) {
    match c
    case Urls => UrlsAgree(s.monitors, s.byURL)
    case Active => ActiveAgrees(s.jobs, s.active)
    case Jobs => JobsAgree(s.jobs, s.monitors.Keys)
    case Open => OpenAgrees(s.incidents, s.open)
    case Incidents => IncidentsAgree(s.incidents, s.monitors.Keys)
    case Monitors => MonitorsAgree(s.monitors)
    case Disabled => DisabledAgrees(s.monitors, s.jobs)
    case Checks => ChecksAgree(s.checks, s.monitors.Keys, s.open.Keys, s.caps.checks)
    case Windows => WindowsBounded(s.caps, s.terminal, s.resolved, s.processed)
  }

  ghost predicate Inv(s: Store) {
    forall c :: ClauseHolds(s, c)
  }

  lemma ClauseOf(s: Store, c: Clause)
    requires Inv(s)
    ensures ClauseHolds(s, c)
  {
  }

  // ------------------------------------------------------------------ building blocks

  function EvictJob(jobs: map<ID, Job>, j: ID): map<ID, Job> {
    if j in jobs && jobs[j].Terminal() then jobs - {j} else jobs
  }

  /** Append a terminal job to the history; the entry it pushes out takes its record along. */
  function Retire(s: Store, j: ID): Store {
    s.(terminal := Remember(s.terminal, j, s.caps.jobs),
       jobs := if |s.terminal| < s.caps.jobs then s.jobs else EvictJob(s.jobs, (s.terminal + [j])[0]))
  }

  function Close(job: Job, status: Status): Job {
    job.(status := status, leaseExpiresAt := 0, leaseToken := "")
  }

  function FinishJob(s: Store, j: ID, status: Status): Store
    requires j in s.jobs
  {
    Retire(s.(jobs := s.jobs[j := Close(s.jobs[j], status)], active := s.active - {s.jobs[j].monitor}), j)
  }

  function KillActive(s: Store, m: ID): Store {
    if m !in s.active then s
    else if s.active[m] !in s.jobs then s.(active := s.active - {m})
    else FinishJob(s, s.active[m], Dead)
  }

  function EvictIncident(incidents: map<ID, Incident>, i: ID): map<ID, Incident> {
    if i in incidents && !incidents[i].open then incidents - {i} else incidents
  }

  function RetireIncident(s: Store, i: ID): Store {
    s.(resolved := Remember(s.resolved, i, s.caps.incidents),
       incidents := if |s.resolved| < s.caps.incidents then s.incidents
                    else EvictIncident(s.incidents, (s.resolved + [i])[0]))
  }

  function ResolveOpen(s: Store, m: ID): Store {
    if m !in s.open then s
    else
      var i := s.open[m];
      if i !in s.incidents then s.(open := s.open - {m})
      else RetireIncident(s.(incidents := s.incidents[i := s.incidents[i].(open := false)], open := s.open - {m}), i)
  }

  // ------------------------------------------------------------------ monitors

  function Create(s: Store, id: ID, w: Settings, urlAllowed: bool, now: Time): (Store, Result<Monitor>) {
    if !ValidSettings(w, urlAllowed) then (s, Failure(InvalidMonitor))
    else if w.config.url in s.byURL then (s, Failure(MonitorExists))
    else
      var m := Monitor(w.config, w.interval, w.enabled, now, 0, 0);
      (s.(monitors := s.monitors[id := m], byURL := s.byURL[w.config.url := id]), Success(m))
  }

  function Or<T>(o: Option<T>, d: T): T { if o.Some? then o.value else d }

  function Proposal(was: Monitor, p: Patch): Settings {
    Settings(Config(Or(p.url, was.config.url), Or(p.timeout, was.config.timeout), Or(p.expected, was.config.expected)),
             Or(p.interval, was.interval), Or(p.enabled, was.enabled))
  }

  function NextCheckAfterIntervalChange(lastCheckedAt: Time, now: Time, interval: nat): (t: Time)
    ensures t >= now
    ensures lastCheckedAt != 0 && t > now ==> t == lastCheckedAt + interval * SECOND
  {
    if lastCheckedAt == 0 then now
    else if lastCheckedAt + interval * SECOND <= now then now
    else lastCheckedAt + interval * SECOND
  }

  function PlannedAfterUpdate(was: Monitor, w: Settings, now: Time): Time
    requires w.interval >= 0
  {
    if !w.enabled then was.nextCheckAt
    else if w.config != was.config || !was.enabled then now
    else if w.interval != was.interval then NextCheckAfterIntervalChange(was.lastCheckedAt, now, w.interval)
    else if was.nextCheckAt < now then now
    else was.nextCheckAt
  }

  function MonitorAfterUpdate(was: Monitor, w: Settings, now: Time): Monitor
    requires w.interval >= 0
  {
    var same := w.config == was.config;
    Monitor(w.config, w.interval, w.enabled, PlannedAfterUpdate(was, w, now),
            if same then was.lastStatusCode else 0, if same then was.lastCheckedAt else 0)
  }

  function ClearedForUpdate(s: Store, id: ID, w: Settings): Store
    requires id in s.monitors
  {
    var changed := w.config != s.monitors[id].config;
    var killed := if !w.enabled || changed then KillActive(s, id) else s;
    if changed then ResolveOpen(killed, id) else killed
  }

  function MovedUrl(byURL: map<string, ID>, id: ID, from: string, to: string): map<string, ID> {
    if from == to then byURL else (byURL - {from})[to := id]
  }

  /** The store after an accepted update: a change of meaning or a disabling ends the active job, a change
      of meaning also closes the open incident. */
  function AfterUpdate(s: Store, id: ID, w: Settings, now: Time): Store
    requires id in s.monitors && w.interval >= 0
  {
    var m := MonitorAfterUpdate(s.monitors[id], w, now);
    ClearedForUpdate(s, id, w).(monitors := s.monitors[id := m],
                                byURL := MovedUrl(s.byURL, id, s.monitors[id].config.url, m.config.url))
  }

  function Update(s: Store, id: ID, p: Patch, urlAllowed: bool, now: Time): (Store, Result<Monitor>) {
    if id !in s.monitors then (s, Failure(MonitorNotFound))
    else
      var was := s.monitors[id];
      var w := Proposal(was, p);
      if !ValidSettings(w, urlAllowed) then (s, Failure(InvalidMonitor))
      else if w.config.url in s.byURL && s.byURL[w.config.url] != id then (s, Failure(MonitorExists))
      else
        (AfterUpdate(s, id, w, now), Success(MonitorAfterUpdate(was, w, now)))
  }

  function JobsWithout(jobs: map<ID, Job>, m: ID): map<ID, Job> {
    map j | j in jobs && jobs[j].monitor != m :: jobs[j]
  }

  function IncidentsWithout(incidents: map<ID, Incident>, m: ID): map<ID, Incident> {
    map i | i in incidents && incidents[i].monitor != m :: incidents[i]
  }

  function Delete(s: Store, id: ID): (Store, Result<()>) {
    if id !in s.monitors then (s, Failure(MonitorNotFound))
    else
      (s.(monitors := s.monitors - {id},
          byURL := s.byURL - {s.monitors[id].config.url},
          checks := s.checks - {id},
          jobs := JobsWithout(s.jobs, id),
          active := s.active - {id},
          open := s.open - {id},
          incidents := IncidentsWithout(s.incidents, id)),
       Success(()))
  }

  // ------------------------------------------------------------------ claiming due jobs

  function Replan(s: Store, m: ID, now: Time): Store
    requires m in s.monitors
  {
    s.(monitors := s.monitors[m := s.monitors[m].(nextCheckAt := now + s.monitors[m].interval * SECOND)])
  }

  function Exhaust(s: Store, j: ID, now: Time): Store
    requires j in s.jobs
  {
    var job := s.jobs[j];
    var t := FinishJob(s, j, Dead);
    if job.kind.Periodic? && job.monitor in t.monitors then Replan(t, job.monitor, now) else t
  }

  predicate Expired(job: Job, now: Time) {
    job.status.Processing? && job.leaseExpiresAt != 0 && job.leaseExpiresAt <= now
  }

  predicate ExhaustedRetry(job: Job, now: Time, maxAttempts: nat) {
    job.status.Failed? && job.availableAt <= now && job.attempt >= maxAttempts
  }

  function SweepJob(s: Store, j: ID, now: Time, maxAttempts: nat): Store {
    if j !in s.jobs then s
    else if !Expired(s.jobs[j], now) && !ExhaustedRetry(s.jobs[j], now, maxAttempts) then s
    else if s.jobs[j].attempt >= maxAttempts then Exhaust(s, j, now)
    else s.(jobs := s.jobs[j := Close(s.jobs[j], Failed).(availableAt := now)])
  }

  predicate Claimable(job: Job, now: Time, maxAttempts: nat) {
    && (job.status.Scheduled? || job.status.Failed?)
    && job.attempt < maxAttempts
    && job.availableAt <= now
    && job.leaseExpiresAt <= now
  }

  function ClaimJob(s: Store, j: ID, token: ID, expires: Time): Store
    requires j in s.jobs
  {
    s.(jobs := s.jobs[j := s.jobs[j].(status := Scheduled, leaseExpiresAt := expires, publicationToken := token)])
  }

  predicate Due(s: Store, m: ID, now: Time) {
    m in s.monitors && s.monitors[m].enabled && s.monitors[m].nextCheckAt <= now && m !in s.active
  }

  function PlannedJob(s: Store, m: ID, token: ID, now: Time, expires: Time): Job
    requires m in s.monitors
  {
    Job(NewCheckJobID(m, s.monitors[m].nextCheckAt, now), m, Periodic, s.monitors[m].nextCheckAt, Scheduled, 0,
        now, expires, "", token)
  }

  function AddJob(s: Store, job: Job): Store {
    s.(jobs := s.jobs[job.id := job], active := s.active[job.monitor := job.id])
  }

  // ------------------------------------------------------------------ one job

  function CreateManual(s: Store, m: ID, id: ID, now: Time): (Store, Result<(Job, bool)>) {
    if m !in s.monitors then (s, Failure(MonitorNotFound))
    else if m in s.active && s.active[m] in s.jobs then (s, Success((s.jobs[s.active[m]], false)))
    else
      var job := Job(id, m, Manual, now, Scheduled, 0, now, 0, "", "");
      (AddJob(s, job), Success((job, true)))
  }

  function OwnsClaim(s: Store, c: Claim): Result<Job> {
    if c.monitor !in s.monitors then Failure(MonitorNotFound)
    else if c.job !in s.jobs || s.jobs[c.job].monitor != c.monitor || c.token == ""
         || s.jobs[c.job].publicationToken != c.token then Failure(StaleJob)
    else Success(s.jobs[c.job])
  }

  /** Outcome of a publication callback: error, nothing to do, or the job it may change. */
  predicate ClaimHolds(s: Store, c: Claim, now: Time) {
    && OwnsClaim(s, c).Success?
    && s.jobs[c.job].status.Scheduled? && s.jobs[c.job].attempt == c.attempt
    && s.jobs[c.job].leaseExpiresAt > now
  }

  function PublicationOutcome(s: Store, c: Claim, now: Time): Result<()> {
    var owner := OwnsClaim(s, c);
    if owner.Failure? then Failure(owner.error)
    else if !owner.value.status.Scheduled? then Success(())
    else if owner.value.attempt != c.attempt || owner.value.leaseExpiresAt <= now then Failure(StaleJob)
    else Success(())
  }

  function MarkPublished(s: Store, c: Claim, now: Time): (Store, Result<()>) {
    if !ClaimHolds(s, c, now) then (s, PublicationOutcome(s, c, now))
    else (s.(jobs := s.jobs[c.job := s.jobs[c.job].(status := Queued, leaseExpiresAt := 0)]), Success(()))
  }

  function ReleasePublish(s: Store, c: Claim, now: Time): (Store, Result<()>) {
    if !ClaimHolds(s, c, now) then (s, PublicationOutcome(s, c, now))
    else (s.(jobs := s.jobs[c.job := s.jobs[c.job].(leaseExpiresAt := 0, publicationToken := "")]), Success(()))
  }

  function RecoverJob(job: Job, now: Time): Job {
    if job.Published() then Close(job, Failed).(availableAt := now, publicationToken := "") else job
  }

  function RecoverAll(jobs: map<ID, Job>, now: Time): map<ID, Job> {
    map j | j in jobs :: RecoverJob(jobs[j], now)
  }

  function Recover(s: Store, now: Time): Store {
    s.(jobs := RecoverAll(s.jobs, now))
  }

  function ActiveJob(s: Store, m: ID, j: ID): Result<Job> {
    if m !in s.monitors then Failure(MonitorNotFound)
    else if m !in s.active || s.active[m] != j || j !in s.jobs || s.jobs[j].monitor != m then Failure(StaleJob)
    else Success(s.jobs[j])
  }

  function ProcessingOutcome(s: Store, m: ID, j: ID, attempt: int): Result<Job> {
    var found := ActiveJob(s, m, j);
    if found.Failure? then found
    else if found.value.status.Processing? then Failure(AlreadyProcessing)
    else if !found.value.Published() || attempt <= found.value.attempt then Failure(StaleJob)
    else found
  }

  function Timeout(timeout: int): (t: nat)
    ensures t > 0
  {
    if timeout <= 0 then MINUTE else timeout
  }

  function MarkProcessing(s: Store, m: ID, j: ID, attempt: int, token: ID, now: Time, timeout: int): (Store,
                          Result<Lease>) {
    var found := ProcessingOutcome(s, m, j, attempt);
    if found.Failure? then (s, Failure(found.error))
    else
      var job := found.value.(status := Processing, attempt := attempt,
                              leaseExpiresAt := now + Timeout(timeout), leaseToken := token);
      (s.(jobs := s.jobs[j := job]), Success(Lease(j, m, attempt, token)))
  }

  predicate OwnsLease(job: Job, lease: Lease, now: Time) {
    && job.status.Processing? && job.leaseExpiresAt > now
    && job.id == lease.job && job.monitor == lease.monitor && job.attempt == lease.attempt
    && job.leaseToken != "" && job.leaseToken == lease.token
  }

  /** The lease gives authority over its job at that instant. */
  predicate Authority(s: Store, lease: Lease, now: Time) {
    ActiveJob(s, lease.monitor, lease.job).Success? && OwnsLease(s.jobs[lease.job], lease, now)
  }

  function LeaseOutcome(s: Store, lease: Lease): Result<()> {
    var found := ActiveJob(s, lease.monitor, lease.job);
    if found.Failure? then Failure(found.error) else Failure(StaleJob)
  }

  /** `wall` is the second clock reading, taken inside the lock. */
  function MarkFailed(s: Store, lease: Lease, now: Time, retryAt: Time, wall: Time): (Store, Result<()>) {
    if !Authority(s, lease, now) || s.jobs[lease.job].leaseExpiresAt <= wall then (s, LeaseOutcome(s, lease))
    else (s.(jobs := s.jobs[lease.job := Close(s.jobs[lease.job], Failed).(availableAt := retryAt)]), Success(()))
  }

  function MarkDead(s: Store, lease: Lease, now: Time, nextCheckAt: Time, wall: Time): (Store, Result<()>) {
    if !Authority(s, lease, now) || s.jobs[lease.job].leaseExpiresAt <= wall then (s, LeaseOutcome(s, lease))
    else
      var t := FinishJob(s, lease.job, Dead);
      (if s.jobs[lease.job].kind.Periodic? && lease.monitor in t.monitors
         then t.(monitors := t.monitors[lease.monitor := t.monitors[lease.monitor].(nextCheckAt := nextCheckAt)])
         else t, Success(()))
  }

  // ------------------------------------------------------------------ results

  function AddCheckError(s: Store, r: CheckRecord, lease: Lease, now: Time): Option<Error> {
    if r.monitor !in s.monitors then Some(MonitorNotFound)
    else if r.job == "" then Some(JobIDRequired)
    else if r.job !in s.jobs || s.jobs[r.job].monitor != r.monitor then Some(StaleJob)
    else if s.jobs[r.job].status.Completed? then Some(DuplicateJob)
    else if !OwnsLease(s.jobs[r.job], lease, now) then Some(StaleJob)
    else if r.job in s.processed then Some(DuplicateJob)
    else None
  }

  function StoreCheck(s: Store, r: CheckRecord): Store {
    var records := if r.monitor in s.checks then s.checks[r.monitor] else [];
    s.(checks := s.checks[r.monitor := Remember(records, r, s.caps.checks)])
  }

  function MonitorAfterCheck(m: Monitor, kind: Kind, r: CheckRecord, now: Time): Monitor {
    m.(lastStatusCode := r.statusCode, lastCheckedAt := now,
       nextCheckAt := if kind.Periodic? then now + m.interval * SECOND else m.nextCheckAt)
  }

  function UpdateIncident(s: Store, r: CheckRecord, incident: ID): Store {
    if r.success then ResolveOpen(s, r.monitor)
    else if r.monitor in s.open && s.open[r.monitor] in s.incidents then
      var i := s.open[r.monitor];
      s.(incidents := s.incidents[i := s.incidents[i].(failures := s.incidents[i].failures + 1)])
    else
      s.(incidents := s.incidents[incident := Incident(r.monitor, true, 1)], open := s.open[r.monitor := incident])
  }

  /** The store after an accepted result, with the monitor's new record. */
  function AfterCheck(s: Store, r: CheckRecord, incident: ID, m: Monitor): Store
    requires r.job in s.jobs
  {
    var done := FinishJob(s, r.job, Completed);
    UpdateIncident(StoreCheck(done.(processed := Remember(done.processed, r.job, done.caps.processed),
                                    monitors := done.monitors[r.monitor := m]), r), r, incident)
  }

  function AddCheck(s: Store, r: CheckRecord, lease: Lease, incident: ID, now: Time): (Store, Result<Monitor>) {
    var error := AddCheckError(s, r, lease, now);
    if error.Some? then (s, Failure(error.value))
    else
      var m := MonitorAfterCheck(s.monitors[r.monitor], s.jobs[r.job].kind, r, now);
      (AfterCheck(s, r, incident, m), Success(m))
  }

  /** The consecutive-failure figure reported for a monitor. */
  function ConsecutiveFailures(s: Store, m: ID): nat {
    if m in s.checks && s.checks[m] != [] && m in s.open && s.open[m] in s.incidents
    then s.incidents[s.open[m]].failures else 0
  }
}

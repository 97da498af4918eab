/** Runs of the store: the store together with what has happened so far, one step per locked
    operation, and the facts that hold in every state a run can reach. */
module Runs {
  import opened Identifiers
  import opened Model
  import opened Sequences
  import opened StoreSpec
  import opened Priority

  datatype Event =
    | Granted(lease: Lease)                 // a processing lease was handed out
    | Settled(lease: Lease)                 // a result, a failure or a death was accepted under a lease
    | Recorded(job: ID, monitor: ID, success: bool, used: Config, inForce: Config)
    | Cleared(monitor: ID)                  // created, or its check semantics changed

  datatype Log = Start | Then(past: Log, event: Event)

  function Grants(log: Log, j: ID): nat {
    match log
    case Start => 0
    case Then(past, e) => Grants(past, j) + if e.Granted? && e.lease.job == j then 1 else 0
  }

  function Verdicts(log: Log, token: ID): nat {
    match log
    case Start => 0
    case Then(past, e) => Verdicts(past, token) + if e.Settled? && e.lease.token == token then 1 else 0
  }

  function Results(log: Log, j: ID): nat {
    match log
    case Start => 0
    case Then(past, e) => Results(past, j) + if e.Recorded? && e.job == j then 1 else 0
  }

  /** Failed results accepted since the monitor was created, last succeeded or last changed meaning. */
  function Streak(log: Log, m: ID): nat {
    match log
    case Start => 0
    case Then(past, e) =>
      if e.Cleared? && e.monitor == m then 0
      else if e.Recorded? && e.monitor == m then (if e.success then 0 else Streak(past, m) + 1)
      else Streak(past, m)
  }

  /** `planned` maps each periodic job identifier ever used to its slot, `manuals` holds the manual
      ones, `tokens` maps every token ever drawn to the job it was drawn for. */
  datatype State = State(
    store: Store,
    clock: Time,
    monitors: set<ID>,
    planned: map<ID, (ID, Time)>,
    manuals: set<ID>,
    tokens: map<ID, ID>,
    log: Log)

  function Initial(caps: Caps): State {
    State(Empty(caps), 0, {}, map[], {}, map[], Start)
  }

  predicate Issued(st: State, j: ID) { j in st.planned || j in st.manuals }

  // ------------------------------------------------------------------ facts

  /** A job's identifier tells where it came from, and its tokens were drawn for it. */
  predicate JobKnown(st: State, j: ID, job: Job) {
    && (if job.kind.Manual? then j in st.manuals
        else j in st.planned && st.planned[j] == (job.monitor, job.scheduledFor))
    && (job.leaseToken != "" ==> job.leaseToken in st.tokens && st.tokens[job.leaseToken] == j)
    && (job.publicationToken != "" ==> job.publicationToken in st.tokens && st.tokens[job.publicationToken] == j)
  }

  ghost predicate JobsKnown(st: State) {
    && (forall j :: j in st.store.jobs ==> JobKnown(st, j, st.store.jobs[j]))
    && "" !in st.tokens
  }

  /** Identifiers have the two known shapes. */
  ghost predicate IdentifiersKnown(st: State) {
    && (forall j :: j in st.planned ==>
          st.planned[j].1 != 0 && j == NewCheckJobID(st.planned[j].0, st.planned[j].1, 0))
    && (forall j :: j in st.manuals ==> RandomID("job", j))
  }

  /** Enabled and without an active periodic job: the scheduler may plan a check. */
  predicate Idle(s: Store, m: ID) {
    && m in s.monitors && s.monitors[m].enabled
    && (m in s.active && s.active[m] in s.jobs ==> s.jobs[s.active[m]].kind.Manual?)
  }

  /** Every slot used lies in the past, and strictly before the next one to be planned. */
  ghost predicate SlotsPast(st: State) {
    && st.store.monitors.Keys <= st.monitors
    && (forall j :: j in st.planned ==>
          && st.planned[j].0 in st.monitors
          && st.planned[j].1 <= st.clock
          && (Idle(st.store, st.planned[j].0) ==> st.planned[j].1 < st.store.monitors[st.planned[j].0].nextCheckAt))
  }

  /** A lease token is settled at most once, and a settled one is on no job. */
  ghost predicate VerdictsOnce(st: State) {
    forall k ::
      && Verdicts(st.log, k) <= 1
      && (Verdicts(st.log, k) > 0 ==>
            k in st.tokens && (st.tokens[k] in st.store.jobs ==> st.store.jobs[st.tokens[k]].leaseToken != k))
  }

  /** A job records at most one result, and only by completing. */
  ghost predicate ResultsOnce(st: State) {
    && (forall j ::
          && Results(st.log, j) <= 1
          && (Results(st.log, j) > 0 ==>
                Issued(st, j) && (j in st.store.jobs ==> st.store.jobs[j].status.Completed?)))
    && (forall j :: j in st.store.processed ==> Results(st.log, j) > 0)
  }

  function OpenFailures(open: map<ID, ID>, incidents: map<ID, Incident>, m: ID): nat {
    if m in open && open[m] in incidents then incidents[open[m]].failures else 0
  }

  ghost predicate StreaksCounted(st: State) {
    forall m :: m in st.store.monitors ==> OpenFailures(st.store.open, st.store.incidents, m) == Streak(st.log, m)
  }

  /** Every grant raised the job's attempt. */
  ghost predicate GrantsCounted(st: State) {
    forall j ::
      && (Grants(st.log, j) > 0 ==> Issued(st, j))
      && (j in st.store.jobs ==> Grants(st.log, j) <= st.store.jobs[j].attempt)
  }

  /** The history lists identifiers of jobs that have ended. */
  ghost predicate HistoryEnded(st: State) {
    forall j :: j in st.store.terminal ==> Issued(st, j) && (j in st.store.jobs ==> st.store.jobs[j].Terminal())
  }

  datatype Fact = Agreement | Known | Shapes | Slots | VerdictFact | ResultFact | StreakFact | GrantFact | HistoryFact

  ghost predicate FactHolds(st: State, f: Fact) {
    match f
    case Agreement => Inv(st.store)
    case Known => JobsKnown(st)
    case Shapes => IdentifiersKnown(st)
    case Slots => SlotsPast(st)
    case VerdictFact => VerdictsOnce(st)
    case ResultFact => ResultsOnce(st)
    case StreakFact => StreaksCounted(st)
    case GrantFact => GrantsCounted(st)
    case HistoryFact => HistoryEnded(st)
  }

  ghost predicate Good(st: State) {
    forall f :: FactHolds(st, f)
  }

  lemma FactOf(st: State, f: Fact)
    requires Good(st)
    ensures FactHolds(st, f)
  {
  }

  lemma InitialGood(caps: Caps)
    requires caps.Valid()
    ensures Good(Initial(caps))
  {
  }

  // ------------------------------------------------------------------ quiet changes

  predicate SameOrigin(a: Job, b: Job) {
    a.monitor == b.monitor && a.kind == b.kind && a.scheduledFor == b.scheduledFor
  }

  /** b continues a without a new token, a new result or a new attempt. */
  predicate Continues(a: Job, b: Job) {
    && SameOrigin(a, b)
    && b.attempt == a.attempt
    && (b.leaseToken == a.leaseToken || b.leaseToken == "")
    && (b.publicationToken == a.publicationToken || b.publicationToken == "")
    && (b.status.Completed? <==> a.status.Completed?)
    && (a.Terminal() ==> b.Terminal())
  }

  ghost predicate JobsContinue(a: map<ID, Job>, b: map<ID, Job>) {
    forall j :: j in b ==> j in a && Continues(a[j], b[j])
  }

  /** A monitor that may be planned was already so and not earlier, or has its next check after `clock`. */
  ghost predicate SlotsContinue(a: Store, b: Store, clock: Time) {
    forall m :: Idle(b, m) ==>
      m in a.monitors &&
      (b.monitors[m].nextCheckAt > clock || (Idle(a, m) && b.monitors[m].nextCheckAt >= a.monitors[m].nextCheckAt))
  }

  ghost predicate StreaksContinue(a: Store, b: Store) {
    forall m :: m in b.monitors ==>
      m in a.monitors && OpenFailures(b.open, b.incidents, m) == OpenFailures(a.open, a.incidents, m)
  }

  /** Only jobs that have ended join the history. */
  ghost predicate HistoryContinues(a: Store, b: Store) {
    forall j :: j in b.terminal ==> j in a.terminal || (j in a.jobs && (j in b.jobs ==> b.jobs[j].Terminal()))
  }

  ghost predicate Quiet(a: Store, b: Store, clock: Time) {
    && JobsContinue(a.jobs, b.jobs) && SlotsContinue(a, b, clock) && StreaksContinue(a, b)
    && HistoryContinues(a, b) && b.processed == a.processed
  }

  lemma QuietKeepsJobs(st: State, t: Store)
    requires JobsKnown(st) && VerdictsOnce(st) && HistoryEnded(st) && Quiet(st.store, t, st.clock)
    ensures JobsKnown(st.(store := t)) && VerdictsOnce(st.(store := t)) && HistoryEnded(st.(store := t))
  {
  }

  lemma QuietKeepsGood(st: State, t: Store)
    requires Good(st) && Inv(t) && Quiet(st.store, t, st.clock)
    ensures Good(st.(store := t))
  {
    var st' := st.(store := t);
    FactOf(st, Known); FactOf(st, VerdictFact); FactOf(st, HistoryFact);
    QuietKeepsJobs(st, t);
    forall f ensures FactHolds(st', f) {
      if f != Known && f != VerdictFact && f != HistoryFact { FactOf(st, f); }
    }
  }

  lemma TickKeepsGood(st: State, now: Time)
    requires Good(st) && now >= st.clock
    ensures Good(st.(clock := now))
  {
    var st' := st.(clock := now);
    forall f ensures FactHolds(st', f) {
      FactOf(st, f);
    }
  }

  // ------------------------------------------------------------------ operations

  /** How one claim call resolves what the code leaves open: the order in which the sweep meets the
      rows, the rows picked for another publication, the monitors given a new job, the tokens drawn. */
  datatype Plan = Plan(sweep: seq<ID>, retries: seq<Rank>, births: seq<Rank>, tokens: seq<ID>)

  datatype Op =
    | Creating(id: ID, settings: Settings, urlAllowed: bool, now: Time)
    | Updating(id: ID, patch: Patch, urlAllowed: bool, now: Time)
    | Deleting(id: ID, now: Time)
    | Claiming(plan: Plan, limit: int, now: Time, timeout: int, maxAttempts: int)
    | Requesting(monitor: ID, id: ID, now: Time)
    | Confirming(claim: Claim, now: Time)
    | Releasing(claim: Claim, now: Time)
    | Recovering(now: Time)
    | Granting(monitor: ID, job: ID, attempt: int, token: ID, now: Time, timeout: int)
    | Failing(lease: Lease, now: Time, delay: nat, wall: Time)
    | Burying(lease: Lease, now: Time, interval: nat, wall: Time)
    | Recording(record: CheckRecord, lease: Lease, used: Config, incident: ID, now: Time)

  function SweepAll(s: Store, order: seq<ID>, now: Time, maxAttempts: nat): Store {
    if order == [] then s
    else SweepJob(SweepAll(s, order[..|order| - 1], now, maxAttempts), order[|order| - 1], now, maxAttempts)
  }

  function Take(st: State, j: ID, token: ID, expires: Time): State {
    if j !in st.store.jobs then st
    else st.(store := ClaimJob(st.store, j, token, expires), tokens := st.tokens[token := j])
  }

  function TakeAll(st: State, picks: seq<Rank>, tokens: seq<ID>, expires: Time): State
    requires |picks| <= |tokens|
  {
    if picks == [] then st
    else
      var n := |picks| - 1;
      Take(TakeAll(st, picks[..n], tokens, expires), picks[n].id, tokens[n], expires)
  }

  function Bear(st: State, m: ID, token: ID, now: Time, expires: Time): State {
    if m !in st.store.monitors then st
    else
      var job := PlannedJob(st.store, m, token, now, expires);
      st.(store := AddJob(st.store, job), planned := st.planned[job.id := (m, job.scheduledFor)],
          tokens := st.tokens[token := job.id])
  }

  function BearAll(st: State, picks: seq<Rank>, tokens: seq<ID>, now: Time, expires: Time): State
    requires |picks| <= |tokens|
  {
    if picks == [] then st
    else
      var n := |picks| - 1;
      Bear(BearAll(st, picks[..n], tokens, now, expires), picks[n].id, tokens[n], now, expires)
  }

  function Attempts(maxAttempts: int): (n: nat)
    ensures n > 0
  {
    if maxAttempts <= 0 then DEFAULT_MAX_ATTEMPTS else maxAttempts
  }

  function RetryPool(s: Store, now: Time, maxAttempts: nat): set<Rank> {
    set j | j in s.jobs && Claimable(s.jobs[j], now, maxAttempts) ::
      Rank(s.jobs[j].availableAt, s.jobs[j].scheduledFor, j)
  }

  function BirthPool(s: Store, now: Time): set<Rank> {
    set m | m in s.monitors && Due(s, m, now) :: Rank(s.monitors[m].nextCheckAt, 0, m)
  }

  /** The sweep meets every row once, and both selections are exact. */
  ghost predicate GoodPlan(s: Store, plan: Plan, limit: nat, now: Time, maxAttempts: nat) {
    var swept := SweepAll(s, plan.sweep, now, maxAttempts);
    && (forall j :: j in plan.sweep <==> j in s.jobs)
    && NoDuplicates(plan.sweep)
    && TopOf(plan.retries, RetryPool(swept, now, maxAttempts), limit)
    && TopOf(plan.births, BirthPool(swept, now), limit - |plan.retries|)
    && |plan.tokens| == |plan.retries| + |plan.births|
  }

  ghost predicate FreshTokens(st: State, tokens: seq<ID>) {
    && (forall i :: 0 <= i < |tokens| ==> tokens[i] != "" && tokens[i] !in st.tokens)
    && NoDuplicates(tokens)
  }

  function Claimed(st: State, plan: Plan, now: Time, expires: Time, maxAttempts: nat): State
    requires |plan.tokens| == |plan.retries| + |plan.births|
  {
    var n := |plan.retries|;
    var swept := st.(store := SweepAll(st.store, plan.sweep, now, maxAttempts));
    var taken := TakeAll(swept, plan.retries, plan.tokens[..n], expires);
    BearAll(taken.(clock := now), plan.births, plan.tokens[n..], now, expires)
  }

  /** The two halves of a step, named so that a proof takes up only what it needs. */
  datatype Half = Guard | Effect

  /** The assumptions about the outside world: the clock strictly advances from one operation to the
      next, and what newID yields was never seen before. */
  ghost predicate Enabled(st: State, op: Op) {
    && op.now > st.clock
    && match op
       case Creating(id, _, _, _) => id !in st.monitors
       case Claiming(plan, limit, now, _, maxAttempts) =>
         limit > 0 ==> GoodPlan(st.store, plan, limit, now, Attempts(maxAttempts)) && FreshTokens(st, plan.tokens)
       case Requesting(_, id, _) => RandomID("job", id) && id !in st.manuals
       case Granting(_, _, _, token, _, _) => token != "" && token !in st.tokens
       case Failing(_, now, _, wall) => wall >= now
       case Burying(_, now, interval, wall) => wall >= now && 30 <= interval <= 86400
       case Recording(_, _, _, incident, _) => incident !in st.store.incidents
       case _ => true
  }

  function DoCreate(st: State, id: ID, w: Settings, urlAllowed: bool, now: Time): (after: State)
    ensures after == st.(store := after.store, clock := now, monitors := after.monitors, log := after.log)
    ensures after.monitors >= st.monitors
  {
    var (t, r) := Create(st.store, id, w, urlAllowed, now);
    if r.Failure? then st.(clock := now)
    else st.(store := t, clock := now, monitors := st.monitors + {id}, log := Then(st.log, Cleared(id)))
  }

  function DoUpdate(st: State, id: ID, patch: Patch, urlAllowed: bool, now: Time): (after: State)
    ensures after == st.(store := after.store, clock := now, log := after.log)
  {
    var (t, r) := Update(st.store, id, patch, urlAllowed, now);
    if r.Success? && id in st.store.monitors && r.value.config != st.store.monitors[id].config
    then st.(store := t, clock := now, log := Then(st.log, Cleared(id)))
    else st.(store := t, clock := now)
  }

  function DoDelete(st: State, id: ID, now: Time): (after: State)
    ensures after == st.(store := after.store, clock := now)
  {
    st.(store := Delete(st.store, id).0, clock := now)
  }

  function DoClaim(st: State, plan: Plan, limit: int, now: Time, timeout: int, maxAttempts: int): State
    requires limit > 0 ==> |plan.tokens| == |plan.retries| + |plan.births|
  {
    if limit <= 0 then st.(clock := now)
    else Claimed(st, plan, now, now + Timeout(timeout), Attempts(maxAttempts))
  }

  function DoRequest(st: State, m: ID, id: ID, now: Time): (after: State)
    ensures after == st.(store := st.store.(jobs := after.store.jobs, active := after.store.active),
                         clock := now, manuals := after.manuals)
    ensures after.manuals >= st.manuals
  {
    var (t, r) := CreateManual(st.store, m, id, now);
    st.(store := t, clock := now, manuals := if r.Success? && r.value.1 then st.manuals + {id} else st.manuals)
  }

  function DoConfirm(st: State, c: Claim, now: Time): (after: State)
    ensures after == st.(store := st.store.(jobs := after.store.jobs), clock := now)
  {
    st.(store := MarkPublished(st.store, c, now).0, clock := now)
  }

  function DoRelease(st: State, c: Claim, now: Time): (after: State)
    ensures after == st.(store := st.store.(jobs := after.store.jobs), clock := now)
  {
    st.(store := ReleasePublish(st.store, c, now).0, clock := now)
  }

  function DoRecover(st: State, now: Time): (after: State)
    ensures after == st.(store := st.store.(jobs := after.store.jobs), clock := now)
  {
    st.(store := Recover(st.store, now), clock := now)
  }

  function DoGrant(st: State, m: ID, j: ID, attempt: int, token: ID, now: Time, timeout: int): (after: State)
    ensures after == st.(store := st.store.(jobs := after.store.jobs), clock := now,
                         tokens := after.tokens, log := after.log)
    ensures token !in st.tokens ==> forall k :: k in st.tokens ==> k in after.tokens && after.tokens[k] == st.tokens[k]
  {
    var (t, r) := MarkProcessing(st.store, m, j, attempt, token, now, timeout);
    if r.Failure? then st.(clock := now)
    else st.(store := t, clock := now, tokens := st.tokens[token := j], log := Then(st.log, Granted(r.value)))
  }

  function DoFail(st: State, lease: Lease, now: Time, delay: nat, wall: Time): (after: State)
    ensures after == st.(store := st.store.(jobs := after.store.jobs), clock := wall, log := after.log)
  {
    var (t, r) := MarkFailed(st.store, lease, now, now + delay, wall);
    st.(store := t, clock := wall, log := if r.Success? then Then(st.log, Settled(lease)) else st.log)
  }

  function DoBury(st: State, lease: Lease, now: Time, interval: nat, wall: Time): (after: State)
    ensures after == st.(store := after.store, clock := wall, log := after.log)
  {
    var (t, r) := MarkDead(st.store, lease, now, now + interval * SECOND, wall);
    st.(store := t, clock := wall, log := if r.Success? then Then(st.log, Settled(lease)) else st.log)
  }

  function DoRecord(st: State, r: CheckRecord, lease: Lease, used: Config, incident: ID, now: Time): (after: State)
    ensures after == st.(store := after.store, clock := now, log := after.log)
  {
    var (t, outcome) := AddCheck(st.store, r, lease, incident, now);
    if outcome.Failure? || r.monitor !in st.store.monitors then st.(clock := now)
    else st.(store := t, clock := now,
             log := Then(Then(st.log, Settled(lease)),
                         Recorded(r.job, r.monitor, r.success, used, st.store.monitors[r.monitor].config)))
  }

  ghost function Do(st: State, op: Op): State
    requires Enabled(st, op)
  {
    match op
    case Creating(id, w, urlAllowed, now) => DoCreate(st, id, w, urlAllowed, now)
    case Updating(id, patch, urlAllowed, now) => DoUpdate(st, id, patch, urlAllowed, now)
    case Deleting(id, now) => DoDelete(st, id, now)
    case Claiming(plan, limit, now, timeout, maxAttempts) => DoClaim(st, plan, limit, now, timeout, maxAttempts)
    case Requesting(m, id, now) => DoRequest(st, m, id, now)
    case Confirming(c, now) => DoConfirm(st, c, now)
    case Releasing(c, now) => DoRelease(st, c, now)
    case Recovering(now) => DoRecover(st, now)
    case Granting(m, j, attempt, token, now, timeout) => DoGrant(st, m, j, attempt, token, now, timeout)
    case Failing(lease, now, delay, wall) => DoFail(st, lease, now, delay, wall)
    case Burying(lease, now, interval, wall) => DoBury(st, lease, now, interval, wall)
    case Recording(r, lease, used, incident, now) => DoRecord(st, r, lease, used, incident, now)
  }
}

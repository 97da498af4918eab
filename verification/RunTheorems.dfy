/** What holds in every run of the store, from the empty store on, under any sequence of operations. */
module RunTheorems {
  import opened Identifiers
  import opened Model
  import opened StoreSpec
  import opened StoreInvariants
  import opened Runs
  import opened RunInvariants
  import opened Lifecycle

  ghost predicate HalfHolds(h: Half, a: State, op: Op, b: State) {
    match h
    case Guard => Enabled(a, op)
    case Effect => Enabled(a, op) && b == Do(a, op)
  }

  ghost predicate Step(a: State, op: Op, b: State) {
    forall h :: HalfHolds(h, a, op, b)
  }

  lemma StepTaken(a: State, op: Op, b: State)
    requires Step(a, op, b)
    ensures Enabled(a, op) && b == Do(a, op)
  {
    assert HalfHolds(Effect, a, op, b);
  }

  ghost predicate IsRun(caps: Caps, states: seq<State>, ops: seq<Op>) {
    && caps.Valid() && |states| == |ops| + 1 && states[0] == Initial(caps)
    && (forall i :: 0 <= i < |ops| ==> Step(states[i], ops[i], states[i + 1]))
  }

  lemma StepKeepsGood(a: State, op: Op, b: State)
    requires Good(a) && Step(a, op, b)
    ensures Good(b)
  {
    StepTaken(a, op, b);
    StepGood(a, op);
  }

  lemma {:induction false} RunGood(caps: Caps, states: seq<State>, ops: seq<Op>, i: nat)
    requires IsRun(caps, states, ops) && i < |states|
    ensures Good(states[i])
  {
    if i == 0 {
      InitialGood(caps);
    } else {
      RunGood(caps, states, ops, i - 1);
      StepKeepsGood(states[i - 1], ops[i - 1], states[i]);
    }
  }

  /** What the theorems use of one step of a run. */
  lemma RunStep(caps: Caps, states: seq<State>, ops: seq<Op>, i: nat)
    requires IsRun(caps, states, ops) && i < |ops|
    ensures Good(states[i]) && Good(states[i + 1]) && Step(states[i], ops[i], states[i + 1])
    ensures JobsAdvance(states[i], ScopeOf(states[i], ops[i]), states[i + 1].store.jobs)
    ensures ScopeOf(states[i], ops[i]).tokens == states[i].tokens && Remembers(states[i], states[i + 1])
    ensures states[i].clock < ops[i].now <= states[i + 1].clock
  {
    RunGood(caps, states, ops, i);
    RunGood(caps, states, ops, i + 1);
    StepTaken(states[i], ops[i], states[i + 1]);
    StepAdvances(states[i], ops[i]);
    StepRemembers(states[i], ops[i]);
    StepClock(states[i], ops[i]);
  }

  // ------------------------------------------------------------------ indexes, results, schedule

  /** Index agreement: URL index, active-job index, open-incident index, lease tokens, windows. */
  lemma IndexesAgree(caps: Caps, states: seq<State>, ops: seq<Op>, i: nat)
    requires IsRun(caps, states, ops) && i < |states|
    ensures var s := states[i].store;
      && UrlsAgree(s.monitors, s.byURL)
      && ActiveAgrees(s.jobs, s.active)
      && OpenAgrees(s.incidents, s.open)
      && (forall j :: j in s.jobs ==> (s.jobs[j].leaseToken != "" <==> s.jobs[j].status.Processing?))
      && DisabledAgrees(s.monitors, s.jobs)
  {
    RunGood(caps, states, ops, i);
    FactOf(states[i], Agreement);
    var s := states[i].store;
    ClauseOf(s, Urls); ClauseOf(s, Active); ClauseOf(s, Open); ClauseOf(s, Jobs); ClauseOf(s, Disabled);
  }

  /** At most one result per job identifier, ever, whatever the bounded histories have forgotten; so a
      job whose lease is good is never found among the processed identifiers. */
  lemma OneResultPerJob(caps: Caps, states: seq<State>, ops: seq<Op>, i: nat, j: ID)
    requires IsRun(caps, states, ops) && i < |states|
    ensures Results(states[i].log, j) <= 1
    ensures j in states[i].store.jobs && states[i].store.jobs[j].status.Processing? ==>
      j !in states[i].store.processed && Results(states[i].log, j) == 0
  {
    RunGood(caps, states, ops, i);
    FactOf(states[i], ResultFact);
  }

  lemma CountIsStreak(st: State, m: ID)
    requires Good(st) && m in st.store.monitors
    ensures ConsecutiveFailures(st.store, m) == Streak(st.log, m)
  {
    FactOf(st, Agreement); FactOf(st, StreakFact);
    ClauseOf(st.store, Checks); ClauseOf(st.store, Open);
  }

  /** The reported consecutive-failure count is the number of failures since the last reset. */
  lemma FailureCountIsStreak(caps: Caps, states: seq<State>, ops: seq<Op>, i: nat, m: ID)
    requires IsRun(caps, states, ops) && i < |states| && m in states[i].store.monitors
    ensures ConsecutiveFailures(states[i].store, m) == Streak(states[i].log, m)
  {
    RunGood(caps, states, ops, i);
    CountIsStreak(states[i], m);
  }

  /** A monitor that may be planned again is due strictly after every slot it ever had; so the
      identifier its next periodic job will get was never used. */
  lemma NextSlotIsNew(caps: Caps, states: seq<State>, ops: seq<Op>, i: nat, m: ID)
    requires IsRun(caps, states, ops) && i < |states| && Idle(states[i].store, m)
    ensures forall j :: j in states[i].planned && states[i].planned[j].0 == m ==>
      states[i].planned[j].1 < states[i].store.monitors[m].nextCheckAt
    ensures forall now :: Due(states[i].store, m, now) ==>
      !Issued(states[i], NewCheckJobID(m, states[i].store.monitors[m].nextCheckAt, now))
  {
    RunGood(caps, states, ops, i);
    FactOf(states[i], Slots);
    forall now | Due(states[i].store, m, now)
      ensures !Issued(states[i], NewCheckJobID(m, states[i].store.monitors[m].nextCheckAt, now))
    {
      DueIdentifierIsNew(states[i], m, now);
    }
  }

  function Switch(on: bool): Patch { Patch(None, None, None, None, Some(on)) }

  lemma SwitchSucceeds(s: Store, m: ID, on: bool, now: Time)
    requires Inv(s) && m in s.monitors
    ensures var (t, r) := Update(s, m, Switch(on), true, now);
      && r.Success? && m in t.monitors && t.monitors[m].enabled == on
      && t.active == (if on then s.active else KillActive(s, m).active)
      && (on && !s.monitors[m].enabled ==> t.monitors[m].nextCheckAt == now)
  {
    ClauseOf(s, Monitors); ClauseOf(s, Urls);
    assert MonitorAgrees(s.monitors[m]);
  }

  /** The advancing clock is needed: if a check is planned, and its monitor disabled and enabled again, all at
      one clock reading, the monitor is due once more under the identifier just used. */
  lemma EqualReadingsRepeat(s: Store, m: ID, token: ID, expires: Time, now: Time)
    requires Inv(s) && Due(s, m, now) && s.monitors[m].nextCheckAt == now
    requires PlannedJob(s, m, token, now, expires).id !in s.jobs && now != 0
    ensures var planned := AddJob(s, PlannedJob(s, m, token, now, expires));
      var off := Update(planned, m, Switch(false), true, now).0;
      var on := Update(off, m, Switch(true), true, now).0;
      Due(on, m, now) && NewCheckJobID(m, on.monitors[m].nextCheckAt, now) == PlannedJob(s, m, token, now, expires).id
  {
    var planned := AddJob(s, PlannedJob(s, m, token, now, expires));
    BirthKeepsInv(s, m, token, now, expires);
    SwitchSucceeds(planned, m, false, now);
    KillKeepsInv(planned, m);
    UpdateKeepsInv(planned, m, Switch(false), true, now);
    SwitchSucceeds(Update(planned, m, Switch(false), true, now).0, m, true, now);
  }

  /** Evicted or deleted jobs never come back, and a terminal record never changes. */
  lemma {:induction false} JobsAreFinal(caps: Caps, states: seq<State>, ops: seq<Op>, i: nat, k: nat, j: ID)
    requires IsRun(caps, states, ops) && i <= k < |states| && Issued(states[i], j)
    ensures Issued(states[k], j)
    ensures j !in states[i].store.jobs ==> j !in states[k].store.jobs
    ensures j in states[i].store.jobs && states[i].store.jobs[j].Terminal() && j in states[k].store.jobs ==>
      states[k].store.jobs[j] == states[i].store.jobs[j]
    decreases k
  {
    if i < k {
      JobsAreFinal(caps, states, ops, i, k - 1, j);
      RunStep(caps, states, ops, k - 1);
    }
  }

  /** The job is live, and the operation is not one that takes its record away. */
  predicate LiveThrough(st: State, op: Op, j: ID) {
    j in st.store.jobs ==> !st.store.jobs[j].Terminal() && !Removes(op, st.store.jobs[j])
  }

  lemma LiveStep(a: State, op: Op, b: State, j: ID)
    requires Good(a) && Step(a, op, b) && LiveThrough(a, op, j) && j in a.store.jobs
    ensures j in b.store.jobs
  {
    StepTaken(a, op, b);
    StepKeepsLive(a, op, j);
  }

  /** A live job does not vanish: its record stays stored until the job ends or its monitor is deleted. */
  lemma {:induction false} LiveStays(caps: Caps, states: seq<State>, ops: seq<Op>, i: nat, k: nat, j: ID)
    requires IsRun(caps, states, ops) && i <= k < |states| && j in states[i].store.jobs
    requires forall p :: i <= p < k ==> LiveThrough(states[p], ops[p], j)
    ensures j in states[k].store.jobs
    decreases k
  {
    if i < k {
      LiveStays(caps, states, ops, i, k - 1, j);
      RunGood(caps, states, ops, k - 1);
      LiveStep(states[k - 1], ops[k - 1], states[k], j);
    }
  }

  // ------------------------------------------------------------------ lease fencing

  /** The operation is a grant that was accepted and handed out the lease. */
  ghost predicate HandsOut(a: State, op: Op, lease: Lease) {
    op.Granting? &&
    MarkProcessing(a.store, op.monitor, op.job, op.attempt, op.token, op.now, op.timeout).1 == Success(lease)
  }

  function Expiry(op: Op): Time
    requires op.Granting?
  {
    op.now + Timeout(op.timeout)
  }

  /** The record under which a lease is handed out: until it expires the lease has authority, under an
      attempt higher than any before; before the grant the job was under no lease. */
  lemma GrantRecord(a: State, op: Op, b: State, lease: Lease)
    requires Good(a) && Step(a, op, b) && HandsOut(a, op, lease)
    ensures lease.job in a.store.jobs && a.store.jobs[lease.job].leaseToken == ""
    ensures lease.token != "" && lease.token !in a.tokens && lease.token in b.tokens
    ensures b.tokens[lease.token] == lease.job
    ensures lease.job in b.store.jobs && b.store.jobs[lease.job].leaseToken == lease.token
    ensures b.store.jobs[lease.job].leaseExpiresAt == Expiry(op)
    ensures b.store.jobs[lease.job].attempt == lease.attempt > a.store.jobs[lease.job].attempt
    ensures forall u: Time :: Authority(b.store, lease, u) <==> u < Expiry(op)
  {
    StepTaken(a, op, b);
    FactOf(a, Agreement);
    ClauseOf(a.store, Jobs);
  }

  lemma GrantLeavesFailed(st: State, m: ID, k: ID, attempt: int, token: ID, now: Time, timeout: int, j: ID)
    requires j in st.store.jobs && st.store.jobs[j].status.Failed?
    ensures var t := DoGrant(st, m, k, attempt, token, now, timeout).store.jobs; j in t && t[j] == st.store.jobs[j]
  {
  }

  lemma ReportLeavesFailed(st: State, lease: Lease, now: Time, delay: nat, wall: Time, j: ID)
    requires j in st.store.jobs && st.store.jobs[j].status.Failed?
    ensures var t := DoFail(st, lease, now, delay, wall).store.jobs; j in t && t[j] == st.store.jobs[j]
  {
  }

  lemma ReleaseLeavesFailed(st: State, c: Claim, now: Time, j: ID)
    requires j in st.store.jobs && st.store.jobs[j].status.Failed?
    ensures var t := DoRelease(st, c, now).store.jobs; j in t && t[j] == st.store.jobs[j]
  {
  }

  predicate Reopens(op: Op) { op.Releasing? || op.Recovering? || op.Granting? || op.Failing? }

  /** Releases, recovery, grants and reported failures concern jobs in other states. */
  lemma JobOpLeavesFailed(st: State, op: Op, j: ID)
    requires Enabled(st, op) && Reopens(op)
    requires j in st.store.jobs && st.store.jobs[j].status.Failed?
    ensures j in Do(st, op).store.jobs && Do(st, op).store.jobs[j] == st.store.jobs[j]
  {
    match op
    case Releasing(c, now) => ReleaseLeavesFailed(st, c, now, j);
    case Granting(m, k, attempt, token, now, timeout) => GrantLeavesFailed(st, m, k, attempt, token, now, timeout, j);
    case Failing(lease, now, delay, wall) => ReportLeavesFailed(st, lease, now, delay, wall, j);
    case Recovering(_) =>
  }

  lemma AdvanceLeavesFailed(x: Scope, a: Job, b: Job)
    requires Advances(x, a, b) && !x.reopens && x.granted == 0 && a.status.Failed?
    requires a.leaseToken == "" && (b.status.Processing? ==> b.leaseToken != "")
    ensures b == a || b.Terminal()
  {
  }

  lemma ScopeCloses(st: State, op: Op)
    requires !op.Claiming? && !Reopens(op)
    ensures !ScopeOf(st, op).reopens && ScopeOf(st, op).granted == 0
  {
  }

  lemma LeaseWhileProcessing(st: State, j: ID)
    requires Good(st) && j in st.store.jobs
    ensures st.store.jobs[j].leaseToken != "" <==> st.store.jobs[j].status.Processing?
  {
    FactOf(st, Agreement);
    ClauseOf(st.store, Jobs);
  }

  /** A failed job is left alone by everything but a claim call, or it ends. */
  lemma FailedStays(a: State, op: Op, b: State, j: ID)
    requires Good(a) && Good(b) && Step(a, op, b) && !op.Claiming? && JobsAdvance(a, ScopeOf(a, op), b.store.jobs)
    requires j in a.store.jobs && a.store.jobs[j].status.Failed? && j in b.store.jobs
    ensures b.store.jobs[j] == a.store.jobs[j] || b.store.jobs[j].Terminal()
  {
    if Reopens(op) {
      StepTaken(a, op, b);
      JobOpLeavesFailed(a, op, j);
    } else {
      ScopeCloses(a, op);
      LeaseWhileProcessing(a, j); LeaseWhileProcessing(b, j);
      AdvanceLeavesFailed(ScopeOf(a, op), a.store.jobs[j], b.store.jobs[j]);
    }
  }

  /** What an accepted report of a failure leaves. */
  lemma FailureRecord(a: State, op: Op, b: State)
    requires Step(a, op, b) && op.Failing?
    requires MarkFailed(a.store, op.lease, op.now, op.now + op.delay, op.wall).1.Success?
    ensures var j := op.lease.job;
      && j in a.store.jobs && j in b.store.jobs && b.store.jobs[j].status.Failed?
      && b.store.jobs[j].availableAt == op.now + op.delay && b.store.jobs[j].leaseExpiresAt == 0
      && b.store.jobs[j].attempt == a.store.jobs[j].attempt
  {
    StepTaken(a, op, b);
  }

  lemma {:induction false} FailureStays(caps: Caps, states: seq<State>, ops: seq<Op>, i: nat, k: nat, j: ID)
    requires IsRun(caps, states, ops) && i <= k < |states| && Issued(states[i], j)
    requires j in states[i].store.jobs && states[i].store.jobs[j].status.Failed?
    requires forall p :: i <= p < k ==> !ops[p].Claiming?
    ensures j in states[k].store.jobs ==>
      states[k].store.jobs[j] == states[i].store.jobs[j] || states[k].store.jobs[j].Terminal()
    decreases k
  {
    if i < k {
      FailureStays(caps, states, ops, i, k - 1, j);
      JobsAreFinal(caps, states, ops, i, k - 1, j);
      RunStep(caps, states, ops, k - 1);
      if j in states[k].store.jobs && states[k - 1].store.jobs[j].status.Failed? {
        FailedStays(states[k - 1], ops[k - 1], states[k], j);
      }
    }
  }

  /** A job reported failed waits: whatever else happens before the next claim call, that call finds it over, or
      claimable exactly from its retry time on and while attempts remain. */
  lemma RetryWaits(caps: Caps, states: seq<State>, ops: seq<Op>, i: nat, k: nat, maxAttempts: nat, u: Time)
    requires IsRun(caps, states, ops) && i < k < |states| && ops[i].Failing?
    requires MarkFailed(states[i].store, ops[i].lease, ops[i].now, ops[i].now + ops[i].delay, ops[i].wall).1.Success?
    requires forall p :: i < p < k ==> !ops[p].Claiming?
    ensures var j := ops[i].lease.job;
      j in states[i].store.jobs &&
      (j in states[k].store.jobs && !states[k].store.jobs[j].Terminal() ==>
         (Claimable(states[k].store.jobs[j], u, maxAttempts) <==>
            u >= ops[i].now + ops[i].delay && states[i].store.jobs[j].attempt < maxAttempts))
  {
    var j := ops[i].lease.job;
    FailureRecord(states[i], ops[i], states[i + 1]);
    RunGood(caps, states, ops, i + 1);
    FactOf(states[i + 1], Known);
    assert JobKnown(states[i + 1], j, states[i + 1].store.jobs[j]);
    FailureStays(caps, states, ops, i + 1, k, j);
  }

  /** A failure or death reported without authority leaves the whole store as it was and is refused. */
  lemma NoAuthorityNoChange(s: Store, lease: Lease, now: Time, wall: Time, t: Time)
    requires now <= wall && !Authority(s, lease, wall)
    ensures MarkFailed(s, lease, now, t, wall) == (s, LeaseOutcome(s, lease))
    ensures MarkDead(s, lease, now, t, wall) == (s, LeaseOutcome(s, lease))
  {
  }

  /** And so does a result without authority, or for another job than the lease's. */
  lemma NoAuthorityNoResult(s: Store, lease: Lease, now: Time, r: CheckRecord, incident: ID)
    requires Inv(s) && (!Authority(s, lease, now) || r.job != lease.job || r.monitor != lease.monitor)
    ensures AddCheck(s, r, lease, incident, now).0 == s && AddCheck(s, r, lease, incident, now).1.Failure?
  {
    ClauseOf(s, Active); ClauseOf(s, Jobs);
  }

  ghost predicate OnJob(st: State, token: ID) {
    exists j :: j in st.store.jobs && st.store.jobs[j].leaseToken == token
  }

  /** A lease token that is off its job stays off every job: an expired lease that was recovered, a
      settled one or a superseded one never regains authority. */
  lemma {:induction false} RevokedForever(caps: Caps, states: seq<State>, ops: seq<Op>, i: nat, k: nat, token: ID)
    requires IsRun(caps, states, ops) && i <= k < |states|
    requires token in states[i].tokens && !OnJob(states[i], token)
    ensures token in states[k].tokens && !OnJob(states[k], token)
    ensures forall lease: Lease, now :: lease.token == token ==> !Authority(states[k].store, lease, now)
    decreases k
  {
    if i < k {
      RevokedForever(caps, states, ops, i, k - 1, token);
      RunStep(caps, states, ops, k - 1);
      FactOf(states[k - 1], Known);
    }
  }

  /** A lease token is on no other job than the one it was drawn for. */
  lemma OnlyOwnJob(st: State, token: ID, j: ID)
    requires Good(st) && token != "" && token in st.tokens && st.tokens[token] == j
    ensures OnJob(st, token) ==> j in st.store.jobs && st.store.jobs[j].leaseToken == token
  {
    FactOf(st, Known);
    if k :| k in st.store.jobs && st.store.jobs[k].leaseToken == token { assert JobKnown(st, k, st.store.jobs[k]); }
  }

  lemma StillUnderway(a: State, x: Scope, b: State, lease: Lease)
    requires Good(a) && Good(b) && JobsAdvance(a, x, b.store.jobs) && x.tokens == a.tokens && Remembers(a, b)
    requires lease.token != "" && lease.token in a.tokens
    requires lease.job in a.store.jobs && a.store.jobs[lease.job].leaseToken == lease.token
    ensures lease.token in b.tokens
    ensures OnJob(b, lease.token) ==> lease.job in b.store.jobs && b.store.jobs[lease.job] == a.store.jobs[lease.job]
  {
    FactOf(a, Known);
    assert JobKnown(a, lease.job, a.store.jobs[lease.job]);
    OnlyOwnJob(b, lease.token, lease.job);
  }

  /** As long as a lease's token is on some job, that is its own job in the very record of the grant. */
  lemma {:induction false} LeaseUnderway(caps: Caps, states: seq<State>, ops: seq<Op>, i: nat, k: nat, lease: Lease)
    requires IsRun(caps, states, ops) && i < |ops| && i < k < |states| && HandsOut(states[i], ops[i], lease)
    ensures lease.token != "" && lease.token in states[k].tokens
    ensures lease.job in states[i + 1].store.jobs && states[i + 1].store.jobs[lease.job].leaseToken == lease.token
    ensures OnJob(states[k], lease.token) ==>
      lease.job in states[k].store.jobs && states[k].store.jobs[lease.job] == states[i + 1].store.jobs[lease.job]
    decreases k
  {
    if k == i + 1 {
      RunGood(caps, states, ops, i);
      GrantRecord(states[i], ops[i], states[k], lease);
      RunGood(caps, states, ops, k);
      OnlyOwnJob(states[k], lease.token, lease.job);
    } else {
      LeaseUnderway(caps, states, ops, i, k - 1, lease);
      if OnJob(states[k - 1], lease.token) {
        RunStep(caps, states, ops, k - 1);
        StillUnderway(states[k - 1], ScopeOf(states[k - 1], ops[k - 1]), states[k], lease);
      } else {
        RevokedForever(caps, states, ops, k - 1, k, lease.token);
      }
    }
  }

  /** A lease has authority until it expires and never afterwards, in whatever state of the run. */
  lemma LeaseExpires(caps: Caps, states: seq<State>, ops: seq<Op>, i: nat, k: nat, lease: Lease, u: Time)
    requires IsRun(caps, states, ops) && i < |ops| && i < k < |states| && HandsOut(states[i], ops[i], lease)
    ensures Authority(states[i + 1].store, lease, u) <==> u < Expiry(ops[i])
    ensures u >= Expiry(ops[i]) ==> !Authority(states[k].store, lease, u)
  {
    RunStep(caps, states, ops, i);
    GrantRecord(states[i], ops[i], states[i + 1], lease);
    LeaseUnderway(caps, states, ops, i, k, lease);
  }

  /** Another lease of the same job was handed out later. */
  ghost predicate Superseded(states: seq<State>, ops: seq<Op>, i: nat, k: nat, lease: Lease)
    requires k < |states| && |states| == |ops| + 1
  {
    exists m, other :: i < m < k && HandsOut(states[m], ops[m], other) && other.job == lease.job
  }

  /** Once another lease of the job is handed out, the earlier one has no authority at any time. */
  lemma LeaseSuperseded(caps: Caps, states: seq<State>, ops: seq<Op>, i: nat, k: nat, lease: Lease, u: Time)
    requires IsRun(caps, states, ops) && i < |ops| && i < k < |states| && HandsOut(states[i], ops[i], lease)
    requires Superseded(states, ops, i, k, lease)
    ensures !Authority(states[k].store, lease, u)
  {
    var m, other :| i < m < k && HandsOut(states[m], ops[m], other) && other.job == lease.job;
    RunStep(caps, states, ops, i);
    GrantRecord(states[i], ops[i], states[i + 1], lease);
    LeaseUnderway(caps, states, ops, i, m, lease);
    RunStep(caps, states, ops, m);
    GrantRecord(states[m], ops[m], states[m + 1], other);
    RevokedForever(caps, states, ops, m, k, lease.token);
  }

  /** At any instant of any run at most one of the leases handed out for a job has authority. */
  lemma OneAuthority(caps: Caps, states: seq<State>, ops: seq<Op>, i: nat, m: nat, k: nat, a: Lease, b: Lease, u: Time)
    requires IsRun(caps, states, ops) && i <= m < |ops| && m < k < |states|
    requires HandsOut(states[i], ops[i], a) && HandsOut(states[m], ops[m], b) && a.job == b.job
    ensures Authority(states[k].store, a, u) && Authority(states[k].store, b, u) ==> i == m && a == b
  {
    if i < m { LeaseSuperseded(caps, states, ops, i, k, a, u); }
  }

  /** Lease fencing: in every later state of the run, a failure, death or result reported under a lease that
      has expired or was superseded leaves the whole store unchanged and is refused. */
  lemma LeaseFencing(caps: Caps, states: seq<State>, ops: seq<Op>, i: nat, k: nat, lease: Lease,
                     now: Time, wall: Time, t: Time, r: CheckRecord, incident: ID)
    requires IsRun(caps, states, ops) && i < |ops| && i < k < |states| && HandsOut(states[i], ops[i], lease)
    requires now <= wall
    ensures var s := states[k].store;
      wall >= Expiry(ops[i]) || Superseded(states, ops, i, k, lease) ==>
        && MarkFailed(s, lease, now, t, wall).0 == s && MarkFailed(s, lease, now, t, wall).1.Failure?
        && MarkDead(s, lease, now, t, wall).0 == s && MarkDead(s, lease, now, t, wall).1.Failure?
    ensures var s := states[k].store;
      now >= Expiry(ops[i]) || Superseded(states, ops, i, k, lease) ==>
        AddCheck(s, r, lease, incident, now).0 == s && AddCheck(s, r, lease, incident, now).1.Failure?
  {
    RunGood(caps, states, ops, k);
    FactOf(states[k], Agreement);
    LeaseExpires(caps, states, ops, i, k, lease, now);
    LeaseExpires(caps, states, ops, i, k, lease, wall);
    if Superseded(states, ops, i, k, lease) {
      LeaseSuperseded(caps, states, ops, i, k, lease, now);
      LeaseSuperseded(caps, states, ops, i, k, lease, wall);
    }
    if !Authority(states[k].store, lease, wall) { NoAuthorityNoChange(states[k].store, lease, now, wall, t); }
    if !Authority(states[k].store, lease, now) { NoAuthorityNoResult(states[k].store, lease, now, r, incident); }
  }

  /** Each lease yields at most one accepted result, failure or death. */
  lemma OneVerdictPerLease(caps: Caps, states: seq<State>, ops: seq<Op>, i: nat, token: ID)
    requires IsRun(caps, states, ops) && i < |states|
    ensures Verdicts(states[i].log, token) <= 1
    ensures Verdicts(states[i].log, token) == 1 ==> !OnJob(states[i], token)
  {
    RunGood(caps, states, ops, i);
    FactOf(states[i], VerdictFact); FactOf(states[i], Known);
  }

  // ------------------------------------------------------------------ publication fencing

  /** Some job is waiting for publication under the token. */
  ghost predicate Pending(st: State, token: ID) {
    exists j :: j in st.store.jobs && st.store.jobs[j].Published() && st.store.jobs[j].publicationToken == token
  }

  lemma {:induction false} SpentForever(caps: Caps, states: seq<State>, ops: seq<Op>, i: nat, k: nat, token: ID)
    requires IsRun(caps, states, ops) && i <= k < |states|
    requires token in states[i].tokens && !Pending(states[i], token)
    ensures token in states[k].tokens && !Pending(states[k], token)
    decreases k
  {
    if i < k {
      SpentForever(caps, states, ops, i, k - 1, token);
      RunStep(caps, states, ops, k - 1);
    }
  }

  /** After a topology recovery no claim issued earlier alters any job, at any later time; every job that was
      waiting for publication or processing can be claimed again at once, if attempts remain, and no other job is
      touched. */
  lemma RecoveryRevokesClaims(caps: Caps, states: seq<State>, ops: seq<Op>, i: nat, k: nat, c: Claim, now: Time,
                              maxAttempts: nat)
    requires IsRun(caps, states, ops) && i < |ops| && ops[i].Recovering? && i < k < |states|
    requires c.token in states[i].tokens
    ensures MarkPublished(states[k].store, c, now).0 == states[k].store
    ensures ReleasePublish(states[k].store, c, now).0 == states[k].store
    ensures forall j :: j in states[i].store.jobs && !states[i].store.jobs[j].Published() ==>
      j in states[i + 1].store.jobs && states[i + 1].store.jobs[j] == states[i].store.jobs[j]
    ensures forall j :: j in states[i].store.jobs && states[i].store.jobs[j].Published() ==>
      && j in states[i + 1].store.jobs && states[i + 1].store.jobs[j].publicationToken == ""
      && (Claimable(states[i + 1].store.jobs[j], ops[i].now, maxAttempts) <==>
            states[i].store.jobs[j].attempt < maxAttempts)
  {
    RunStep(caps, states, ops, i);
    StepTaken(states[i], ops[i], states[i + 1]);
    FactOf(states[i], Known);
    assert !Pending(states[i + 1], c.token);
    SpentForever(caps, states, ops, i + 1, k, c.token);
  }
}

/** How a single job can move in one operation, and what follows over whole runs: leases and
    publication claims are fenced, identifiers are never reused, results are unique. */
module Lifecycle {
  import opened Identifiers
  import opened Model
  import opened Sequences
  import opened StoreSpec
  import opened Priority
  import opened Runs
  import opened RunInvariants

  /** What one operation brings along: the tokens drawn before it, the token it confirms (or ""), a bound
      that the attempt of a job going back from processing to failed stays below, the attempt number it
      may grant, and whether it may make a job available for another publication. */
  datatype Scope = Scope(tokens: map<ID, ID>, confirmed: ID, bound: int, granted: int, reopens: bool)

  function Plain(st: State): Scope { Scope(st.tokens, "", 0, 0, false) }

  /** b is a possible next record of the job recorded as a. */
  predicate Advances(x: Scope, a: Job, b: Job) {
    && SameOrigin(a, b)
    && (a.Terminal() ==> b == a)
    && (b.leaseToken == "" || b == a || (b.leaseToken !in x.tokens && b.attempt > a.attempt))
    && b.attempt >= a.attempt
    && (b.attempt > a.attempt ==> b.status.Processing? && b.leaseToken !in x.tokens && b.attempt == x.granted)
    && (b.Published() && (b.publicationToken in x.tokens || b.status.Queued?) ==>
          a.Published() && b.publicationToken == a.publicationToken && b.attempt == a.attempt)
    && (b.status.Queued? ==> a.status.Queued? || (a.publicationToken == x.confirmed && x.confirmed != ""))
    && (b.status.Scheduled? && b.publicationToken in x.tokens ==> b == a)
    && (b.publicationToken == a.publicationToken || b.publicationToken == "" || b.status.Scheduled?)
    && (a.status.Processing? && !b.status.Processing? ==> b.Terminal() || b.attempt < x.bound)
    && (b.status.Completed? ==> a.status.Processing? || a.status.Completed?)
    && (b.status.Scheduled? || b.status.Failed? ==> b == a || x.reopens)
  }

  /** Every job afterwards continues a job from before, or is one that was never issued. */
  ghost predicate JobsAdvance(st: State, x: Scope, jobs: map<ID, Job>) {
    forall j :: j in jobs ==>
      if j in st.store.jobs then Advances(x, st.store.jobs[j], jobs[j])
      else !Issued(st, j) && jobs[j].status.Scheduled? && jobs[j].attempt == 0 && jobs[j].leaseToken == ""
           && jobs[j].publicationToken !in st.tokens
  }

  /** The job is left alone, buried, or (below the attempt bound) returned for another attempt. */
  predicate SweepOutcome(a: Job, b: Job, bound: int) {
    || b == a
    || (!a.Terminal() && b == Close(a, Dead).(availableAt := b.availableAt))
    || ((a.status.Processing? || a.status.Failed?) && a.attempt < bound
        && b == Close(a, Failed).(availableAt := b.availableAt))
  }

  lemma SweepExhausts(s: Store, j: ID, now: Time, maxAttempts: nat)
    requires j in s.jobs && (Expired(s.jobs[j], now) || ExhaustedRetry(s.jobs[j], now, maxAttempts))
    requires s.jobs[j].attempt >= maxAttempts
    ensures SweepJob(s, j, now, maxAttempts) == Exhaust(s, j, now)
    ensures Exhaust(s, j, now).jobs == FinishJob(s, j, Dead).jobs
    ensures FinishJob(s, j, Dead).monitors == s.monitors
    ensures Exhaust(s, j, now).monitors ==
      if s.jobs[j].kind.Periodic? && s.jobs[j].monitor in s.monitors then Replan(s, s.jobs[j].monitor, now).monitors
      else s.monitors
  {
  }

  lemma FinishSwept(s: Store, j: ID)
    requires j in s.jobs && !s.jobs[j].Terminal()
    ensures forall k :: k in FinishJob(s, j, Dead).jobs ==>
      k in s.jobs && SweepOutcome(s.jobs[k], FinishJob(s, j, Dead).jobs[k], 0)
  {
  }

  lemma SweepSwept(s: Store, j: ID, now: Time, maxAttempts: nat)
    ensures forall k :: k in SweepJob(s, j, now, maxAttempts).jobs ==>
      k in s.jobs && SweepOutcome(s.jobs[k], SweepJob(s, j, now, maxAttempts).jobs[k], maxAttempts)
  {
    if j in s.jobs && (Expired(s.jobs[j], now) || ExhaustedRetry(s.jobs[j], now, maxAttempts)) {
      if s.jobs[j].attempt >= maxAttempts {
        SweepExhausts(s, j, now, maxAttempts);
        FinishSwept(s, j);
      } else {
        assert SweepJob(s, j, now, maxAttempts).jobs == s.jobs[j := Close(s.jobs[j], Failed).(availableAt := now)];
      }
    } else {
      assert SweepJob(s, j, now, maxAttempts) == s;
    }
  }

  lemma {:induction false} SweepAllSwept(s: Store, order: seq<ID>, now: Time, maxAttempts: nat)
    ensures forall j :: j in SweepAll(s, order, now, maxAttempts).jobs ==>
      j in s.jobs && SweepOutcome(s.jobs[j], SweepAll(s, order, now, maxAttempts).jobs[j], maxAttempts)
  {
    if order != [] {
      var n := |order| - 1;
      SweepAllSwept(s, order[..n], now, maxAttempts);
      var t := SweepAll(s, order[..n], now, maxAttempts);
      SweepSwept(t, order[n], now, maxAttempts);
    }
  }

  lemma FinishOthers(s: Store, j: ID, k: ID)
    requires j in s.jobs && k != j && k in FinishJob(s, j, Dead).jobs
    ensures k in s.jobs && FinishJob(s, j, Dead).jobs[k] == s.jobs[k]
  {
  }

  lemma ClaimedRecordAdvances(x: Scope, a: Job, b: Job, token: ID, expires: Time)
    requires x.reopens && SweepOutcome(a, b, x.bound) && (b.status.Scheduled? || b.status.Failed?)
    requires b.leaseToken == "" && token !in x.tokens
    ensures Advances(x, a, ClaimedRecord(b, token, expires))
  {
  }

  /** After the sweep and the retries, every job continues one from before. */
  lemma TakenAdvance(st: State, x: Scope, swept: State, taken: State, picks: seq<Rank>, tokens: seq<ID>, expires: Time)
    requires |picks| == |tokens| && FreshTokens(st, tokens) && x.tokens == st.tokens && x.reopens
    requires forall j :: j in swept.store.jobs ==>
      j in st.store.jobs && SweepOutcome(st.store.jobs[j], swept.store.jobs[j], x.bound)
    requires TakenFrom(swept, taken, picks, tokens, expires) && Retryable(swept.store, picks)
    requires JobsAgree(swept.store.jobs, swept.store.monitors.Keys)
    ensures forall j :: j in taken.store.jobs ==>
      j in st.store.jobs && Advances(x, st.store.jobs[j], taken.store.jobs[j])
  {
    forall j | j in taken.store.jobs
      ensures j in st.store.jobs && Advances(x, st.store.jobs[j], taken.store.jobs[j])
    {
      if i :| 0 <= i < |picks| && picks[i].id == j {
        ClaimedRecordAdvances(x, st.store.jobs[j], swept.store.jobs[j], tokens[i], expires);
      }
    }
  }

  lemma BornAdvance(st: State, x: Scope, ready: State, t: State, picks: seq<Rank>, tokens: seq<ID>, now: Time,
                    expires: Time)
    requires |picks| <= |tokens| && FreshTokens(st, tokens) && Plannable(ready.store, picks)
    requires BornFrom(ready, t, picks, tokens, now, expires)
    requires forall j :: j in ready.store.jobs ==>
      j in st.store.jobs && Advances(x, st.store.jobs[j], ready.store.jobs[j])
    requires forall i :: 0 <= i < |picks| ==>
      var j := PlannedID(ready.store, picks[i].id, now); !Issued(st, j) && j !in st.store.jobs
    ensures JobsAdvance(st, x, t.store.jobs)
  {
  }

  lemma NotIssuedNotStored(st: State, j: ID)
    requires Good(st) && !Issued(st, j)
    ensures j !in st.store.jobs
  {
    FactOf(st, Known);
  }

  lemma BirthsAdvance(st: State, x: Scope, ready: State, picks: seq<Rank>, tokens: seq<ID>, now: Time, expires: Time)
    requires Good(st) && Good(ready) && |picks| <= |tokens| && FreshTokens(st, tokens) && Distinct(picks)
    requires ready.planned == st.planned && ready.manuals == st.manuals
    requires forall j :: j in ready.store.jobs ==>
      j in st.store.jobs && Advances(x, st.store.jobs[j], ready.store.jobs[j])
    requires forall i :: 0 <= i < |picks| ==> Due(ready.store, picks[i].id, now)
    ensures JobsAdvance(st, x, BearAll(ready, picks, tokens, now, expires).store.jobs)
  {
    AllPlannable(ready, picks, now);
    forall i | 0 <= i < |picks|
      ensures !Issued(st, PlannedID(ready.store, picks[i].id, now))
      ensures PlannedID(ready.store, picks[i].id, now) !in st.store.jobs
    {
      DueIdentifierIsNew(ready, picks[i].id, now);
      NotIssuedNotStored(st, PlannedID(ready.store, picks[i].id, now));
    }
    BearAllFrame(ready, picks, tokens, now, expires);
    BornAdvance(st, x, ready, BearAll(ready, picks, tokens, now, expires), picks, tokens, now, expires);
  }

  lemma SweptJobs(st: State)
    requires Good(st)
    ensures JobsAgree(st.store.jobs, st.store.monitors.Keys)
  {
    FactOf(st, Agreement);
    ClauseOf(st.store, Jobs);
  }

  lemma RetriesAdvance(st: State, x: Scope, plan: Plan, limit: nat, now: Time, expires: Time, maxAttempts: nat)
    requires Good(st) && now > st.clock && x.tokens == st.tokens && x.bound == maxAttempts && x.reopens
    requires GoodPlan(st.store, plan, limit, now, maxAttempts) && FreshTokens(st, plan.tokens)
    ensures var taken := TakenState(st, plan, now, expires, maxAttempts);
      forall j :: j in taken.store.jobs ==> j in st.store.jobs && Advances(x, st.store.jobs[j], taken.store.jobs[j])
  {
    var tokens := plan.tokens[..|plan.retries|];
    var swept := SweptState(st, plan, now, maxAttempts);
    TakenGood(st, plan, limit, now, expires, maxAttempts);
    SweepAllSwept(st.store, plan.sweep, now, maxAttempts);
    SweptJobs(swept);
    PartsFresh(st, plan.tokens, |plan.retries|);
    TakenAdvance(st, x, swept, TakenState(st, plan, now, expires, maxAttempts), plan.retries, tokens, expires);
  }

  lemma ClaimedAdvance(st: State, x: Scope, plan: Plan, limit: nat, now: Time, expires: Time, maxAttempts: nat)
    requires Good(st) && now > st.clock && x.tokens == st.tokens && x.bound == maxAttempts && x.reopens
    requires GoodPlan(st.store, plan, limit, now, maxAttempts) && FreshTokens(st, plan.tokens)
    ensures JobsAdvance(st, x, Claimed(st, plan, now, expires, maxAttempts).store.jobs)
  {
    var n := |plan.retries|;
    var tokens := plan.tokens[n..];
    TakenGood(st, plan, limit, now, expires, maxAttempts);
    RetriesAdvance(st, x, plan, limit, now, expires, maxAttempts);
    var taken := TakenState(st, plan, now, expires, maxAttempts);
    TickKeepsGood(taken, now);
    BirthsStillDue(SweptState(st, plan, now, maxAttempts), taken, plan.births, limit - n, now);
    PartsFresh(st, plan.tokens, n);
    BirthsAdvance(st, x, taken.(clock := now), plan.births, tokens, now, expires);
  }

  // ------------------------------------------------------------------ every operation

  lemma PutAdvances(st: State, x: Scope, j: ID, job: Job)
    requires j in st.store.jobs && Advances(x, st.store.jobs[j], job)
    ensures JobsAdvance(st, x, st.store.jobs[j := job])
  {
  }

  lemma SweptAdvances(st: State, jobs: map<ID, Job>)
    requires forall j :: j in jobs ==> j in st.store.jobs && SweepOutcome(st.store.jobs[j], jobs[j], 0)
    ensures JobsAdvance(st, Plain(st), jobs)
  {
  }

  lemma ClearedJobs(s: Store, id: ID, w: Settings)
    requires id in s.monitors
    ensures var t := ClearedForUpdate(s, id, w); t.jobs == KillActive(s, id).jobs || t.jobs == s.jobs
  {
    ResolveKeepsRest(KillActive(s, id), id);
    ResolveKeepsRest(s, id);
  }

  lemma UpdateJobs(s: Store, id: ID, p: Patch, urlAllowed: bool, now: Time)
    ensures var t := Update(s, id, p, urlAllowed, now).0; t.jobs == KillActive(s, id).jobs || t.jobs == s.jobs
  {
    if Update(s, id, p, urlAllowed, now).1.Success? {
      var w := Proposal(s.monitors[id], p);
      assert Update(s, id, p, urlAllowed, now).0 == AfterUpdate(s, id, w, now);
      ClearedJobs(s, id, w);
    }
  }

  lemma KillSwept(s: Store, m: ID)
    requires ActiveAgrees(s.jobs, s.active)
    ensures forall j :: j in KillActive(s, m).jobs ==>
      j in s.jobs && SweepOutcome(s.jobs[j], KillActive(s, m).jobs[j], 0)
  {
    if m in s.active { FinishSwept(s, s.active[m]); }
  }

  lemma UpdateAdvances(st: State, id: ID, p: Patch, urlAllowed: bool, now: Time)
    requires Good(st)
    ensures JobsAdvance(st, Plain(st), DoUpdate(st, id, p, urlAllowed, now).store.jobs)
  {
    FactOf(st, Agreement);
    ClauseOf(st.store, Active);
    KillSwept(st.store, id);
    UpdateJobs(st.store, id, p, urlAllowed, now);
    SweptAdvances(st, Update(st.store, id, p, urlAllowed, now).0.jobs);
  }

  lemma GrantAdvances(st: State, m: ID, j: ID, attempt: int, token: ID, now: Time, timeout: int)
    requires Good(st) && token != "" && token !in st.tokens
    ensures JobsAdvance(st, Plain(st).(granted := attempt), DoGrant(st, m, j, attempt, token, now, timeout).store.jobs)
  {
    var found := ProcessingOutcome(st.store, m, j, attempt);
    if found.Success? {
      PutAdvances(st, Plain(st).(granted := attempt), j, found.value.(status := Processing, attempt := attempt,
                                      leaseExpiresAt := now + Timeout(timeout), leaseToken := token));
    } else {
      SweptAdvances(st, st.store.jobs);
    }
  }

  lemma BuryAdvances(st: State, lease: Lease, now: Time, interval: nat, wall: Time)
    ensures JobsAdvance(st, Plain(st), DoBury(st, lease, now, interval, wall).store.jobs)
  {
    if Authority(st.store, lease, now) {
      FinishSwept(st.store, lease.job);
      SweptAdvances(st, FinishJob(st.store, lease.job, Dead).jobs);
    }
  }

  lemma RecordedAdvance(st: State, t: Store, r: CheckRecord, now: Time)
    requires r.job in st.store.jobs && st.store.jobs[r.job].status.Processing? && r.monitor in st.store.monitors
    requires Records(st.store, t, r, now)
    ensures JobsAdvance(st, Plain(st), t.jobs)
  {
  }

  lemma RecordAdvances(st: State, r: CheckRecord, lease: Lease, used: Config, incident: ID, now: Time)
    requires Good(st) && now > st.clock && incident !in st.store.incidents
    ensures JobsAdvance(st, Plain(st), DoRecord(st, r, lease, used, incident, now).store.jobs)
  {
    FactOf(st, Agreement);
    if AddCheckError(st.store, r, lease, now).None? {
      AddCheckRecords(st.store, r, lease, incident, now);
      RecordedAdvance(st, AddCheck(st.store, r, lease, incident, now).0, r, now);
    } else {
      SweptAdvances(st, st.store.jobs);
    }
  }

  lemma ConfirmAdvances(st: State, c: Claim, now: Time)
    requires Good(st)
    ensures JobsAdvance(st, Plain(st).(confirmed := c.token), DoConfirm(st, c, now).store.jobs)
  {
    SweptJobs(st);
    if ClaimHolds(st.store, c, now) {
      var job := st.store.jobs[c.job].(status := Queued, leaseExpiresAt := 0);
      PutAdvances(st, Plain(st).(confirmed := c.token), c.job, job);
    }
  }

  lemma ReleaseAdvances(st: State, c: Claim, now: Time)
    requires Good(st)
    ensures JobsAdvance(st, Plain(st).(reopens := true), DoRelease(st, c, now).store.jobs)
  {
    SweptJobs(st);
    FactOf(st, Known);
    if ClaimHolds(st.store, c, now) {
      var job := st.store.jobs[c.job].(leaseExpiresAt := 0, publicationToken := "");
      PutAdvances(st, Plain(st).(reopens := true), c.job, job);
    }
  }

  lemma RecoverAdvances(st: State, now: Time)
    requires Good(st)
    ensures JobsAdvance(st, Plain(st).(reopens := true), DoRecover(st, now).store.jobs)
  {
  }

  function FailScope(st: State, lease: Lease): Scope { Plain(st).(bound := lease.attempt + 1, reopens := true) }

  lemma FailAdvances(st: State, lease: Lease, now: Time, delay: nat, wall: Time)
    ensures JobsAdvance(st, FailScope(st, lease), DoFail(st, lease, now, delay, wall).store.jobs)
  {
    if Authority(st.store, lease, now) {
      var job := Close(st.store.jobs[lease.job], Failed).(availableAt := now + delay);
      PutAdvances(st, FailScope(st, lease), lease.job, job);
    }
  }

  lemma CreateAdvances(st: State, id: ID, w: Settings, urlAllowed: bool, now: Time)
    ensures JobsAdvance(st, Plain(st), DoCreate(st, id, w, urlAllowed, now).store.jobs)
  {
    SweptAdvances(st, st.store.jobs);
  }

  lemma DeleteAdvances(st: State, id: ID, now: Time)
    ensures JobsAdvance(st, Plain(st), DoDelete(st, id, now).store.jobs)
  {
    SweptAdvances(st, Delete(st.store, id).0.jobs);
  }

  function ClaimScope(st: State, maxAttempts: int): Scope {
    Plain(st).(bound := Attempts(maxAttempts), reopens := true)
  }

  lemma ClaimAdvances(st: State, plan: Plan, limit: int, now: Time, timeout: int, maxAttempts: int)
    requires Good(st) && now > st.clock
    requires limit > 0 ==>
      GoodPlan(st.store, plan, limit, now, Attempts(maxAttempts)) && FreshTokens(st, plan.tokens)
    ensures JobsAdvance(st, ClaimScope(st, maxAttempts), DoClaim(st, plan, limit, now, timeout, maxAttempts).store.jobs)
  {
    if limit > 0 {
      ClaimedAdvance(st, ClaimScope(st, maxAttempts), plan, limit, now, now + Timeout(timeout), Attempts(maxAttempts));
    } else {
      assert DoClaim(st, plan, limit, now, timeout, maxAttempts).store.jobs == st.store.jobs;
    }
  }

  function ScopeOf(st: State, op: Op): Scope {
    match op
    case Claiming(_, _, _, _, maxAttempts) => ClaimScope(st, maxAttempts)
    case Confirming(c, _) => Plain(st).(confirmed := c.token)
    case Granting(_, _, attempt, _, _, _) => Plain(st).(granted := attempt)
    case Releasing(_, _) => Plain(st).(reopens := true)
    case Recovering(_) => Plain(st).(reopens := true)
    case Failing(lease, _, _, _) => FailScope(st, lease)
    case _ => Plain(st)
  }

  predicate OnOneJob(op: Op) {
    op.Requesting? || op.Confirming? || op.Releasing? || op.Recovering? || op.Granting? || op.Failing?
  }

  lemma RequestAdvances(st: State, m: ID, id: ID, now: Time)
    requires Good(st) && RandomID("job", id) && id !in st.manuals
    ensures JobsAdvance(st, Plain(st), DoRequest(st, m, id, now).store.jobs)
  {
    FactOf(st, Known);
    RandomIsNew(st, id);
    if m in st.store.monitors && m !in st.store.active {
      assert DoRequest(st, m, id, now).store.jobs == WithManual(st, m, id, now).store.jobs;
    }
  }

  lemma JobOpAdvances(st: State, op: Op)
    requires Good(st) && Enabled(st, op) && OnOneJob(op)
    ensures JobsAdvance(st, ScopeOf(st, op), Do(st, op).store.jobs)
  {
    match op
    case Requesting(m, id, now) => RequestAdvances(st, m, id, now);
    case Confirming(c, now) => ConfirmAdvances(st, c, now);
    case Releasing(c, now) => ReleaseAdvances(st, c, now);
    case Recovering(now) => RecoverAdvances(st, now);
    case Granting(m, j, attempt, token, now, timeout) => GrantAdvances(st, m, j, attempt, token, now, timeout);
    case Failing(lease, now, delay, wall) => FailAdvances(st, lease, now, delay, wall);
    case _ =>
  }

  lemma MonitorOpAdvances(st: State, op: Op)
    requires Good(st) && Enabled(st, op) && !OnOneJob(op)
    ensures JobsAdvance(st, ScopeOf(st, op), Do(st, op).store.jobs)
  {
    match op
    case Creating(id, w, urlAllowed, now) => CreateAdvances(st, id, w, urlAllowed, now);
    case Updating(id, patch, urlAllowed, now) => UpdateAdvances(st, id, patch, urlAllowed, now);
    case Deleting(id, now) => DeleteAdvances(st, id, now);
    case Claiming(plan, limit, now, timeout, maxAttempts) => ClaimAdvances(st, plan, limit, now, timeout, maxAttempts);
    case Burying(lease, now, interval, wall) => BuryAdvances(st, lease, now, interval, wall);
    case Recording(r, lease, used, incident, now) => RecordAdvances(st, r, lease, used, incident, now);
    case _ =>
  }

  /** How any operation may move any job. */
  lemma StepAdvances(st: State, op: Op)
    requires Good(st) && Enabled(st, op)
    ensures JobsAdvance(st, ScopeOf(st, op), Do(st, op).store.jobs)
  {
    if OnOneJob(op) { JobOpAdvances(st, op); } else { MonitorOpAdvances(st, op); }
  }

  /** What has been issued or drawn stays on record. */
  ghost predicate Remembers(a: State, b: State) {
    && (forall j :: Issued(a, j) ==> Issued(b, j))
    && (forall k :: k in a.tokens ==> k in b.tokens && b.tokens[k] == a.tokens[k])
  }

  lemma {:induction false} TakeAllRemembers(st: State, picks: seq<Rank>, tokens: seq<ID>, expires: Time)
    requires |picks| <= |tokens| && FreshTokens(st, tokens)
    ensures Remembers(st, TakeAll(st, picks, tokens, expires))
  {
    if picks != [] { TakeAllRemembers(st, picks[..|picks| - 1], tokens, expires); }
  }

  lemma {:induction false} BearAllRemembers(st: State, picks: seq<Rank>, tokens: seq<ID>, now: Time, expires: Time)
    requires |picks| <= |tokens| && FreshTokens(st, tokens)
    ensures Remembers(st, BearAll(st, picks, tokens, now, expires))
  {
    if picks != [] { BearAllRemembers(st, picks[..|picks| - 1], tokens, now, expires); }
  }

  lemma RemembersTransitive(a: State, b: State, c: State)
    requires Remembers(a, b) && Remembers(b, c)
    ensures Remembers(a, c)
  {
  }

  lemma ClaimRemembers(st: State, plan: Plan, limit: nat, now: Time, expires: Time, maxAttempts: nat)
    requires Good(st) && now > st.clock
    requires GoodPlan(st.store, plan, limit, now, maxAttempts) && FreshTokens(st, plan.tokens)
    ensures Remembers(st, Claimed(st, plan, now, expires, maxAttempts))
  {
    var n := |plan.retries|;
    TakenGood(st, plan, limit, now, expires, maxAttempts);
    var swept, taken := SweptState(st, plan, now, maxAttempts), TakenState(st, plan, now, expires, maxAttempts);
    PartsFresh(swept, plan.tokens, n);
    TakeAllRemembers(swept, plan.retries, plan.tokens[..n], expires);
    BirthTokensFresh(st, taken, plan.tokens, n);
    var ready := taken.(clock := now);
    BearAllRemembers(ready, plan.births, plan.tokens[n..], now, expires);
    assert Remembers(st, ready);
    RemembersTransitive(st, ready, BearAll(ready, plan.births, plan.tokens[n..], now, expires));
  }

  lemma RegistersKept(st: State, t: State)
    requires t.planned == st.planned && t.manuals == st.manuals && t.tokens == st.tokens
    ensures Remembers(st, t)
  {
  }

  lemma RequestRemembers(st: State, m: ID, id: ID, now: Time)
    ensures Remembers(st, DoRequest(st, m, id, now))
  {
  }

  lemma GrantRemembers(st: State, m: ID, j: ID, attempt: int, token: ID, now: Time, timeout: int)
    requires token !in st.tokens
    ensures Remembers(st, DoGrant(st, m, j, attempt, token, now, timeout))
  {
  }

  lemma ClaimingRemembers(st: State, plan: Plan, limit: int, now: Time, timeout: int, maxAttempts: int)
    requires Good(st) && now > st.clock
    requires limit > 0 ==>
      GoodPlan(st.store, plan, limit, now, Attempts(maxAttempts)) && FreshTokens(st, plan.tokens)
    ensures Remembers(st, DoClaim(st, plan, limit, now, timeout, maxAttempts))
  {
    if limit > 0 { ClaimRemembers(st, plan, limit, now, now + Timeout(timeout), Attempts(maxAttempts)); }
  }

  lemma StepRemembers(st: State, op: Op)
    requires Good(st) && Enabled(st, op)
    ensures Remembers(st, Do(st, op))
  {
    match op
    case Creating(id, w, urlAllowed, now) => RegistersKept(st, DoCreate(st, id, w, urlAllowed, now));
    case Updating(id, patch, urlAllowed, now) => RegistersKept(st, DoUpdate(st, id, patch, urlAllowed, now));
    case Deleting(id, now) => RegistersKept(st, DoDelete(st, id, now));
    case Claiming(plan, limit, now, timeout, maxAttempts) =>
      ClaimingRemembers(st, plan, limit, now, timeout, maxAttempts);
    case Requesting(m, id, now) => RequestRemembers(st, m, id, now);
    case Confirming(c, now) => RegistersKept(st, DoConfirm(st, c, now));
    case Releasing(c, now) => RegistersKept(st, DoRelease(st, c, now));
    case Recovering(now) => RegistersKept(st, DoRecover(st, now));
    case Granting(m, j, attempt, token, now, timeout) => GrantRemembers(st, m, j, attempt, token, now, timeout);
    case Failing(lease, now, delay, wall) => RegistersKept(st, DoFail(st, lease, now, delay, wall));
    case Burying(lease, now, interval, wall) => RegistersKept(st, DoBury(st, lease, now, interval, wall));
    case Recording(r, lease, used, incident, now) => RegistersKept(st, DoRecord(st, r, lease, used, incident, now));
  }

  // ------------------------------------------------------------------ the clock

  lemma {:induction false} BearAllClock(st: State, picks: seq<Rank>, tokens: seq<ID>, now: Time, expires: Time)
    requires |picks| <= |tokens|
    ensures BearAll(st, picks, tokens, now, expires).clock == st.clock
  {
    if picks != [] { BearAllClock(st, picks[..|picks| - 1], tokens, now, expires); }
  }

  lemma ClaimClock(st: State, plan: Plan, limit: int, now: Time, timeout: int, maxAttempts: int)
    requires limit > 0 ==> |plan.tokens| == |plan.retries| + |plan.births|
    ensures DoClaim(st, plan, limit, now, timeout, maxAttempts).clock == now
  {
    if limit > 0 {
      var n, expires := |plan.retries|, now + Timeout(timeout);
      var taken := TakenState(st, plan, now, expires, Attempts(maxAttempts));
      BearAllClock(taken.(clock := now), plan.births, plan.tokens[n..], now, expires);
    }
  }

  lemma StepClock(st: State, op: Op)
    requires Enabled(st, op)
    ensures st.clock < op.now <= Do(st, op).clock
  {
    match op
    case Claiming(plan, limit, now, timeout, maxAttempts) => ClaimClock(st, plan, limit, now, timeout, maxAttempts);
    case _ =>
  }

  // ------------------------------------------------------------------ live jobs stay

  /** The call ends the job for want of attempts. */
  predicate SweepsOut(job: Job, now: Time, maxAttempts: nat) {
    job.attempt >= maxAttempts && (Expired(job, now) || ExhaustedRetry(job, now, maxAttempts))
  }

  /** What takes a live job's record away: the deletion of its monitor, or a sweep that ends it and may push
      it out of the history at once. */
  predicate Removes(op: Op, job: Job) {
    || (op.Deleting? && op.id == job.monitor)
    || (op.Claiming? && op.limit > 0 && SweepsOut(job, op.now, Attempts(op.maxAttempts)))
  }

  /** Ending one job evicts no job that is not in the history. */
  lemma FinishKeepsLive(s: Store, j: ID, status: Status, k: ID)
    requires j in s.jobs && k in s.jobs && k !in s.terminal && s.caps.jobs >= 1
    ensures k in FinishJob(s, j, status).jobs
  {
  }

  lemma NotInHistory(st: State, j: ID)
    requires Good(st) && j in st.store.jobs && !st.store.jobs[j].Terminal()
    ensures j !in st.store.terminal && st.store.caps.jobs >= 1
  {
    FactOf(st, HistoryFact); FactOf(st, Agreement);
    ClauseOf(st.store, Windows);
  }

  lemma SweepKeepsLive(st: State, k: ID, now: Time, maxAttempts: nat, j: ID)
    requires Good(st) && j in st.store.jobs && !st.store.jobs[j].Terminal()
    requires !SweepsOut(st.store.jobs[j], now, maxAttempts)
    ensures var t := SweepJob(st.store, k, now, maxAttempts);
      j in t.jobs && !t.jobs[j].Terminal() && !SweepsOut(t.jobs[j], now, maxAttempts)
  {
    var s := st.store;
    NotInHistory(st, j);
    if k in s.jobs && (Expired(s.jobs[k], now) || ExhaustedRetry(s.jobs[k], now, maxAttempts)) {
      if s.jobs[k].attempt >= maxAttempts {
        SweepExhausts(s, k, now, maxAttempts);
        FinishKeepsLive(s, k, Dead, j);
        FinishOthers(s, k, j);
      } else {
        assert SweepJob(s, k, now, maxAttempts).jobs == s.jobs[k := Close(s.jobs[k], Failed).(availableAt := now)];
      }
    } else {
      assert SweepJob(s, k, now, maxAttempts) == s;
    }
  }

  lemma {:induction false} SweepAllKeepsLive(st: State, order: seq<ID>, now: Time, maxAttempts: nat, j: ID)
    requires Good(st) && now > st.clock && j in st.store.jobs && !st.store.jobs[j].Terminal()
    requires !SweepsOut(st.store.jobs[j], now, maxAttempts)
    ensures var t := SweepAll(st.store, order, now, maxAttempts);
      j in t.jobs && !t.jobs[j].Terminal() && !SweepsOut(t.jobs[j], now, maxAttempts)
  {
    if order != [] {
      var n := |order| - 1;
      SweepAllKeepsLive(st, order[..n], now, maxAttempts, j);
      SweepAllGood(st, order[..n], now, maxAttempts);
      SweepKeepsLive(st.(store := SweepAll(st.store, order[..n], now, maxAttempts)), order[n], now, maxAttempts, j);
    }
  }

  lemma ClaimedKeepsRows(st: State, plan: Plan, limit: nat, now: Time, expires: Time, maxAttempts: nat, j: ID)
    requires Good(st) && now > st.clock
    requires GoodPlan(st.store, plan, limit, now, maxAttempts) && FreshTokens(st, plan.tokens)
    requires j in SweptState(st, plan, now, maxAttempts).store.jobs
    ensures j in Claimed(st, plan, now, expires, maxAttempts).store.jobs
  {
    var n := |plan.retries|;
    TakenGood(st, plan, limit, now, expires, maxAttempts);
    var taken := TakenState(st, plan, now, expires, maxAttempts);
    TickKeepsGood(taken, now);
    BirthsStillDue(SweptState(st, plan, now, maxAttempts), taken, plan.births, limit - n, now);
    AllPlannable(taken.(clock := now), plan.births, now);
    BearAllFrame(taken.(clock := now), plan.births, plan.tokens[n..], now, expires);
  }

  lemma ClaimKeepsLive(st: State, plan: Plan, limit: int, now: Time, timeout: int, maxAttempts: int, j: ID)
    requires Good(st) && now > st.clock && j in st.store.jobs && !st.store.jobs[j].Terminal()
    requires limit > 0 ==>
      GoodPlan(st.store, plan, limit, now, Attempts(maxAttempts)) && FreshTokens(st, plan.tokens)
    requires limit > 0 ==> !SweepsOut(st.store.jobs[j], now, Attempts(maxAttempts))
    ensures j in DoClaim(st, plan, limit, now, timeout, maxAttempts).store.jobs
  {
    if limit > 0 {
      SweepAllKeepsLive(st, plan.sweep, now, Attempts(maxAttempts), j);
      ClaimedKeepsRows(st, plan, limit, now, now + Timeout(timeout), Attempts(maxAttempts), j);
    }
  }

  lemma UpdateKeepsLive(st: State, id: ID, p: Patch, urlAllowed: bool, now: Time, j: ID)
    requires Good(st) && j in st.store.jobs && !st.store.jobs[j].Terminal()
    ensures j in DoUpdate(st, id, p, urlAllowed, now).store.jobs
  {
    var s := st.store;
    NotInHistory(st, j);
    UpdateJobs(s, id, p, urlAllowed, now);
    if id in s.active && s.active[id] in s.jobs { FinishKeepsLive(s, s.active[id], Dead, j); }
  }

  lemma BuryKeepsLive(st: State, lease: Lease, now: Time, interval: nat, wall: Time, j: ID)
    requires Good(st) && j in st.store.jobs && !st.store.jobs[j].Terminal()
    ensures j in DoBury(st, lease, now, interval, wall).store.jobs
  {
    NotInHistory(st, j);
    if Authority(st.store, lease, now) { FinishKeepsLive(st.store, lease.job, Dead, j); }
  }

  lemma RecordKeepsLive(st: State, r: CheckRecord, lease: Lease, used: Config, incident: ID, now: Time, j: ID)
    requires Good(st) && j in st.store.jobs && !st.store.jobs[j].Terminal()
    ensures j in DoRecord(st, r, lease, used, incident, now).store.jobs
  {
    NotInHistory(st, j);
    if AddCheckError(st.store, r, lease, now).None? {
      var m := MonitorAfterCheck(st.store.monitors[r.monitor], st.store.jobs[r.job].kind, r, now);
      var done := FinishJob(st.store, r.job, Completed);
      FinishKeepsLive(st.store, r.job, Completed, j);
      IncidentKeepsRest(StoreCheck(done.(processed := Remember(done.processed, r.job, done.caps.processed),
                                         monitors := done.monitors[r.monitor := m]), r), r, incident);
    }
  }

  lemma JobOpKeepsLive(st: State, op: Op, j: ID)
    requires Enabled(st, op) && OnOneJob(op) && j in st.store.jobs
    ensures j in Do(st, op).store.jobs
  {
  }

  lemma DeleteKeepsLive(st: State, id: ID, now: Time, j: ID)
    requires j in st.store.jobs && st.store.jobs[j].monitor != id
    ensures j in DoDelete(st, id, now).store.jobs
  {
  }

  lemma MonitorOpKeepsLive(st: State, op: Op, j: ID)
    requires Good(st) && Enabled(st, op) && !OnOneJob(op) && j in st.store.jobs && !st.store.jobs[j].Terminal()
    requires !Removes(op, st.store.jobs[j])
    ensures j in Do(st, op).store.jobs
  {
    match op
    case Updating(id, patch, urlAllowed, now) => UpdateKeepsLive(st, id, patch, urlAllowed, now, j);
    case Deleting(id, now) => DeleteKeepsLive(st, id, now, j);
    case Claiming(plan, limit, now, timeout, maxAttempts) =>
      ClaimKeepsLive(st, plan, limit, now, timeout, maxAttempts, j);
    case Burying(lease, now, interval, wall) => BuryKeepsLive(st, lease, now, interval, wall, j);
    case Recording(r, lease, used, incident, now) => RecordKeepsLive(st, r, lease, used, incident, now, j);
    case _ =>
  }

  /** A live job keeps its record through every operation that does not remove it. */
  lemma StepKeepsLive(st: State, op: Op, j: ID)
    requires Good(st) && Enabled(st, op) && j in st.store.jobs && !st.store.jobs[j].Terminal()
    requires !Removes(op, st.store.jobs[j])
    ensures j in Do(st, op).store.jobs
  {
    if OnOneJob(op) {
      JobOpKeepsLive(st, op, j);
    } else {
      MonitorOpKeepsLive(st, op, j);
    }
  }
}

/** Claims over whole runs: while a claim's lease runs nobody else claims the job, a callback works only under
    the very record the claim handed out, and an expired processing job is put back or ended. */
module ClaimRuns {
  import opened Identifiers
  import opened Model
  import opened Sequences
  import opened StoreSpec
  import opened Runs
  import opened Lifecycle
  import opened RunTheorems
  import opened ClaimTheorems

  /** Still claimed under that lease, or past publication: not up for another claim before `expires`. */
  predicate Held(job: Job, token: ID, expires: Time) {
    || (job.status.Scheduled? && job.publicationToken == token && job.leaseExpiresAt == expires)
    || job.status.Queued? || job.status.Processing? || job.Terminal()
  }

  lemma SweepLeaves(s: Store, j: ID, k: ID, now: Time, maxAttempts: nat)
    requires k in s.jobs && k in SweepJob(s, j, now, maxAttempts).jobs
    requires !Expired(s.jobs[k], now) && !s.jobs[k].status.Failed?
    ensures SweepJob(s, j, now, maxAttempts).jobs[k] == s.jobs[k]
  {
    if j in s.jobs && SweepsOut(s.jobs[j], now, maxAttempts) {
      SweepExhausts(s, j, now, maxAttempts);
      FinishOthers(s, j, k);
    }
  }

  lemma {:induction false} SweepAllLeaves(s: Store, order: seq<ID>, k: ID, now: Time, maxAttempts: nat)
    requires k in s.jobs && k in SweepAll(s, order, now, maxAttempts).jobs
    requires !Expired(s.jobs[k], now) && !s.jobs[k].status.Failed?
    ensures SweepAll(s, order, now, maxAttempts).jobs[k] == s.jobs[k]
  {
    if order != [] {
      var n := |order| - 1;
      var t := SweepAll(s, order[..n], now, maxAttempts);
      SweepSwept(t, order[n], now, maxAttempts);
      SweepAllLeaves(s, order[..n], k, now, maxAttempts);
      SweepLeaves(t, order[n], k, now, maxAttempts);
    }
  }

  /** A job there before and after a call was also there after its sweep. */
  lemma StillThere(c: Call, j: ID)
    requires Proper(c) && Good(c.st) && j in c.st.store.jobs && j in c.after.store.jobs
    ensures j in c.swept.store.jobs
  {
    StageOf(c, New); StageOf(c, Born);
    FactOf(c.st, Known);
    assert JobKnown(c.st, j, c.st.store.jobs[j]);
  }

  /** Until its lease runs out, a claim keeps other calls from claiming the same job. */
  lemma CallLeavesHeld(c: Call, j: ID, token: ID, expires: Time)
    requires Proper(c) && Good(c.st) && c.swept.store == SweepAll(c.st.store, c.plan.sweep, c.now, c.maxAttempts)
    requires j in c.st.store.jobs && Held(c.st.store.jobs[j], token, expires) && c.now < expires
    requires !Expired(c.st.store.jobs[j], c.now) && j in c.after.store.jobs
    ensures c.after.store.jobs[j] == c.st.store.jobs[j] && j !in HandedOut(c.st, c.after)
  {
    StillThere(c, j);
    SweepAllLeaves(c.st.store, c.plan.sweep, j, c.now, c.maxAttempts);
    forall i | 0 <= i < |c.plan.retries| ensures c.plan.retries[i].id != j {
      RetryHandedOut(c, i);
      SelectedRow(c, c.plan.retries[i].id);
    }
    NotPickedUnchanged(c, j);
  }

  lemma ClaimLeavesHeld(st: State, plan: Plan, limit: int, now: Time, timeout: int, maxAttempts: int, j: ID,
                        token: ID, expires: Time)
    requires Good(st) && now > st.clock
    requires limit > 0 ==> GoodPlan(st.store, plan, limit, now, Attempts(maxAttempts)) && FreshTokens(st, plan.tokens)
    requires j in st.store.jobs && Held(st.store.jobs[j], token, expires) && now < expires
    requires !Expired(st.store.jobs[j], now)
    ensures var after := DoClaim(st, plan, limit, now, timeout, maxAttempts);
      j in after.store.jobs ==> after.store.jobs[j] == st.store.jobs[j] && j !in HandedOut(st, after)
  {
    FactOf(st, Known);
    assert JobKnown(st, j, st.store.jobs[j]);
    if limit > 0 && j in DoClaim(st, plan, limit, now, timeout, maxAttempts).store.jobs {
      var full, n := now + Timeout(timeout), Attempts(maxAttempts);
      CallProper(st, plan, limit, now, full, n);
      CallLeavesHeld(CallOf(st, plan, limit, now, full, n), j, token, expires);
    }
  }

  lemma {:induction false} TimesIncrease(caps: Caps, states: seq<State>, ops: seq<Op>, p: nat, k: nat)
    requires IsRun(caps, states, ops) && p < k < |ops|
    ensures ops[p].now <= states[k].clock < ops[k].now
    decreases k
  {
    RunStep(caps, states, ops, k - 1);
    RunStep(caps, states, ops, k);
    if p < k - 1 { TimesIncrease(caps, states, ops, p, k - 1); }
  }

  // ------------------------------------------------------------------ overlapping claims

  /** The operation does not put the job back by itself. */
  predicate NotPutBack(op: Op, j: ID) {
    !(op.Releasing? && op.claim.job == j) && !(op.Failing? && op.lease.job == j) && !op.Recovering?
  }

  /** Nor does it find the job's processing lease expired. */
  predicate Undisturbed(st: State, op: Op, j: ID) {
    NotPutBack(op, j) && (op.Claiming? && j in st.store.jobs ==> !Expired(st.store.jobs[j], op.now))
  }

  lemma OtherJobUntouched(st: State, op: Op, j: ID)
    requires Enabled(st, op) && ((op.Releasing? && op.claim.job != j) || (op.Failing? && op.lease.job != j))
    ensures j in Do(st, op).store.jobs ==> j in st.store.jobs && Do(st, op).store.jobs[j] == st.store.jobs[j]
  {
  }

  lemma HeldStep(a: State, op: Op, b: State, j: ID, token: ID, expires: Time)
    requires Good(a) && Step(a, op, b) && JobsAdvance(a, ScopeOf(a, op), b.store.jobs) && Issued(a, j)
    requires j in a.store.jobs ==> Held(a.store.jobs[j], token, expires)
    requires Undisturbed(a, op, j) && op.now < expires
    ensures j in b.store.jobs ==> Held(b.store.jobs[j], token, expires)
  {
    StepTaken(a, op, b);
    if op.Releasing? || op.Failing? {
      OtherJobUntouched(a, op, j);
    } else if op.Claiming? && j in a.store.jobs {
      ClaimLeavesHeld(a, op.plan, op.limit, op.now, op.timeout, op.maxAttempts, j, token, expires);
    }
  }

  lemma StoredIsIssued(st: State, j: ID)
    requires Good(st) && j in st.store.jobs
    ensures Issued(st, j)
  {
    FactOf(st, Known);
    assert JobKnown(st, j, st.store.jobs[j]);
  }

  lemma {:induction false} StaysHeld(caps: Caps, states: seq<State>, ops: seq<Op>, i: nat, k: nat, j: ID,
                                     token: ID, expires: Time)
    requires IsRun(caps, states, ops) && i <= k < |states|
    requires j in states[i].store.jobs && Held(states[i].store.jobs[j], token, expires)
    requires forall p :: i <= p < k ==> Undisturbed(states[p], ops[p], j) && ops[p].now < expires
    ensures Issued(states[k], j)
    ensures j in states[k].store.jobs ==> Held(states[k].store.jobs[j], token, expires)
    decreases k
  {
    if i == k {
      RunGood(caps, states, ops, i);
      StoredIsIssued(states[i], j);
    } else {
      StaysHeld(caps, states, ops, i, k - 1, j, token, expires);
      RunStep(caps, states, ops, k - 1);
      HeldStep(states[k - 1], ops[k - 1], states[k], j, token, expires);
    }
  }

  lemma HandedOutFresh(st: State, plan: Plan, limit: nat, now: Time, expires: Time, maxAttempts: nat, j: ID)
    requires Good(st) && now > st.clock
    requires GoodPlan(st.store, plan, limit, now, maxAttempts) && FreshTokens(st, plan.tokens)
    requires j in HandedOut(st, Claimed(st, plan, now, expires, maxAttempts))
    ensures FreshlyClaimed(Claimed(st, plan, now, expires, maxAttempts).store.jobs[j], expires)
  {
    CallProper(st, plan, limit, now, expires, maxAttempts);
    SelectsWithinLimit(CallOf(st, plan, limit, now, expires, maxAttempts));
  }

  /** The record of a job handed out by a claim step. */
  lemma HandedOutRecord(a: State, op: Op, b: State, j: ID)
    requires Good(a) && Step(a, op, b) && op.Claiming? && op.limit > 0 && j in HandedOut(a, b)
    ensures FreshlyClaimed(b.store.jobs[j], op.now + Timeout(op.timeout))
  {
    StepTaken(a, op, b);
    HandedOutFresh(a, op.plan, op.limit, op.now, op.now + Timeout(op.timeout), Attempts(op.maxAttempts), j);
  }

  lemma HeldNotHandedOut(a: State, op: Op, b: State, j: ID, token: ID, expires: Time)
    requires Good(a) && Step(a, op, b) && JobsAdvance(a, ScopeOf(a, op), b.store.jobs) && op.Claiming?
    requires Issued(a, j) && op.now < expires && Undisturbed(a, op, j)
    requires j in a.store.jobs ==> Held(a.store.jobs[j], token, expires)
    ensures j !in HandedOut(a, b)
  {
    StepTaken(a, op, b);
    if j in a.store.jobs {
      ClaimLeavesHeld(a, op.plan, op.limit, op.now, op.timeout, op.maxAttempts, j, token, expires);
    }
  }

  /** Claims whose leases overlap are disjoint, unless in between the job was released, recovered, reported
      failed, or its processing lease expired. */
  lemma OverlappingClaimsDisjoint(caps: Caps, states: seq<State>, ops: seq<Op>, i: nat, k: nat, j: ID)
    requires IsRun(caps, states, ops) && i < k < |ops| && ops[i].Claiming? && ops[k].Claiming? && ops[i].limit > 0
    requires j in HandedOut(states[i], states[i + 1])
    requires ops[k].now < ops[i].now + Timeout(ops[i].timeout)
    requires forall p :: i < p <= k ==> Undisturbed(states[p], ops[p], j)
    ensures j !in HandedOut(states[k], states[k + 1])
  {
    var expires := ops[i].now + Timeout(ops[i].timeout);
    RunGood(caps, states, ops, i);
    HandedOutRecord(states[i], ops[i], states[i + 1], j);
    var token := states[i + 1].store.jobs[j].publicationToken;
    forall p | i < p < k ensures Undisturbed(states[p], ops[p], j) && ops[p].now < expires {
      TimesIncrease(caps, states, ops, p, k);
    }
    StaysHeld(caps, states, ops, i + 1, k, j, token, expires);
    RunStep(caps, states, ops, k);
    HeldNotHandedOut(states[k], ops[k], states[k + 1], j, token, expires);
  }

  // ------------------------------------------------------------------ long processing leases

  predicate LongLease(job: Job, expires: Time) { job.status.Processing? ==> job.leaseExpiresAt >= expires }

  /** A grant to the job lasts at least until then. */
  predicate LongGrant(op: Op, j: ID, expires: Time) {
    op.Granting? && op.job == j ==> op.now + Timeout(op.timeout) >= expires
  }

  lemma GrantedLong(st: State, op: Op, j: ID, expires: Time)
    requires Enabled(st, op) && op.Granting? && LongGrant(op, j, expires)
    requires j in st.store.jobs ==> LongLease(st.store.jobs[j], expires)
    ensures j in Do(st, op).store.jobs ==> LongLease(Do(st, op).store.jobs[j], expires)
  {
  }

  lemma LongStep(a: State, op: Op, b: State, j: ID, expires: Time)
    requires Good(b) && Step(a, op, b) && JobsAdvance(a, ScopeOf(a, op), b.store.jobs) && LongGrant(op, j, expires)
    requires j in a.store.jobs ==> LongLease(a.store.jobs[j], expires)
    ensures j in b.store.jobs ==> LongLease(b.store.jobs[j], expires)
  {
    if op.Granting? {
      StepTaken(a, op, b);
      GrantedLong(a, op, j, expires);
    } else {
      FactOf(b, Agreement);
      ClauseOf(b.store, Jobs);
      assert ScopeOf(a, op).granted == 0;
    }
  }

  lemma {:induction false} StaysLong(caps: Caps, states: seq<State>, ops: seq<Op>, i: nat, k: nat, j: ID, expires: Time)
    requires IsRun(caps, states, ops) && i <= k < |states|
    requires j in states[i].store.jobs ==> LongLease(states[i].store.jobs[j], expires)
    requires forall p :: i <= p < k ==> LongGrant(ops[p], j, expires)
    ensures j in states[k].store.jobs ==> LongLease(states[k].store.jobs[j], expires)
    decreases k
  {
    if i < k {
      StaysLong(caps, states, ops, i, k - 1, j, expires);
      RunStep(caps, states, ops, k - 1);
      LongStep(states[k - 1], ops[k - 1], states[k], j, expires);
    }
  }

  /** When grants use a timeout at least as long as the claim's, as one check lease timeout for both ensures,
      overlapping claims are disjoint absent a release, a reported failure of the job or a recovery. */
  lemma OneTimeoutClaimsDisjoint(caps: Caps, states: seq<State>, ops: seq<Op>, i: nat, k: nat, j: ID)
    requires IsRun(caps, states, ops) && i < k < |ops| && ops[i].Claiming? && ops[k].Claiming? && ops[i].limit > 0
    requires j in HandedOut(states[i], states[i + 1])
    requires ops[k].now < ops[i].now + Timeout(ops[i].timeout)
    requires forall p :: i < p <= k ==> NotPutBack(ops[p], j)
    requires forall p :: i < p < k && ops[p].Granting? && ops[p].job == j ==>
      Timeout(ops[p].timeout) >= Timeout(ops[i].timeout)
    ensures j !in HandedOut(states[k], states[k + 1])
  {
    var expires := ops[i].now + Timeout(ops[i].timeout);
    RunGood(caps, states, ops, i);
    HandedOutRecord(states[i], ops[i], states[i + 1], j);
    forall p | i < p < k ensures LongGrant(ops[p], j, expires) { TimesIncrease(caps, states, ops, i, p); }
    forall p | i < p <= k ensures Undisturbed(states[p], ops[p], j) {
      StaysLong(caps, states, ops, i + 1, p, j, expires);
      if p < k { TimesIncrease(caps, states, ops, p, k); }
    }
    OverlappingClaimsDisjoint(caps, states, ops, i, k, j);
  }

  // ------------------------------------------------------------------ publication fencing

  function ClaimOn(j: ID, job: Job): Claim { Claim(j, job.monitor, job.attempt, job.publicationToken) }

  /** As long as the job is scheduled under a token drawn before, its record is the same. */
  lemma {:induction false} ScheduledUnchanged(caps: Caps, states: seq<State>, ops: seq<Op>, i: nat, k: nat, j: ID,
                                              token: ID)
    requires IsRun(caps, states, ops) && i <= k < |states| && token in states[i].tokens
    ensures token in states[k].tokens
    ensures j in states[k].store.jobs && states[k].store.jobs[j].status.Scheduled?
            && states[k].store.jobs[j].publicationToken == token ==>
              j in states[i].store.jobs && states[i].store.jobs[j] == states[k].store.jobs[j]
    decreases k
  {
    if i < k {
      ScheduledUnchanged(caps, states, ops, i, k - 1, j, token);
      RunStep(caps, states, ops, k - 1);
    }
  }

  lemma ClaimStands(s: Store, c: Claim, now: Time)
    ensures MarkPublished(s, c, now).0 != s <==> ClaimHolds(s, c, now)
    ensures ReleasePublish(s, c, now).0 != s <==> ClaimHolds(s, c, now)
  {
    if ClaimHolds(s, c, now) {
      assert MarkPublished(s, c, now).0.jobs[c.job] != s.jobs[c.job];
      assert ReleasePublish(s, c, now).0.jobs[c.job] != s.jobs[c.job];
    }
  }

  /** Publication fencing: at any later state of the run, the confirm or release of a claim changes the store
      exactly when the job is still in the very record the claim handed out and the lease has not run out. */
  lemma PublicationFencing(caps: Caps, states: seq<State>, ops: seq<Op>, i: nat, k: nat, j: ID, now: Time)
    requires IsRun(caps, states, ops) && i < |ops| && i < k < |states| && ops[i].Claiming? && ops[i].limit > 0
    requires j in HandedOut(states[i], states[i + 1])
    ensures var s, job := states[k].store, states[i + 1].store.jobs[j];
      var stands := j in s.jobs && s.jobs[j] == job && now < ops[i].now + Timeout(ops[i].timeout);
      && (MarkPublished(s, ClaimOn(j, job), now).0 != s <==> stands)
      && (ReleasePublish(s, ClaimOn(j, job), now).0 != s <==> stands)
  {
    var job := states[i + 1].store.jobs[j];
    RunGood(caps, states, ops, i);
    HandedOutRecord(states[i], ops[i], states[i + 1], j);
    RunGood(caps, states, ops, i + 1);
    FactOf(states[i + 1], Known);
    ScheduledUnchanged(caps, states, ops, i + 1, k, j, job.publicationToken);
    RunGood(caps, states, ops, k);
    FactOf(states[k], Agreement);
    ClauseOf(states[k].store, Jobs);
    ClaimStands(states[k].store, ClaimOn(j, job), now);
  }

  // ------------------------------------------------------------------ expired processing leases

  /** Swept once its lease has run out, a processing job has ended or can be claimed at once. */
  lemma ExpiredIsSwept(s: Store, j: ID, now: Time, maxAttempts: nat)
    requires j in s.jobs && Expired(s.jobs[j], now)
    ensures var t := SweepJob(s, j, now, maxAttempts);
      j in t.jobs ==> t.jobs[j].Terminal() || Claimable(t.jobs[j], now, maxAttempts)
  {
    if s.jobs[j].attempt >= maxAttempts { SweepExhausts(s, j, now, maxAttempts); }
  }

  lemma SweepOthers(s: Store, k: ID, j: ID, now: Time, maxAttempts: nat)
    requires k != j && j in SweepJob(s, k, now, maxAttempts).jobs
    ensures j in s.jobs && SweepJob(s, k, now, maxAttempts).jobs[j] == s.jobs[j]
  {
    if k in s.jobs && SweepsOut(s.jobs[k], now, maxAttempts) {
      SweepExhausts(s, k, now, maxAttempts);
      FinishOthers(s, k, j);
    }
  }

  /** Whatever the order of the sweep, an expired job it has met has ended or can be claimed. */
  lemma {:induction false} SweepAllClears(s: Store, order: seq<ID>, j: ID, now: Time, maxAttempts: nat)
    requires j in s.jobs && Expired(s.jobs[j], now) && NoDuplicates(order)
    ensures var t := SweepAll(s, order, now, maxAttempts);
      j in t.jobs ==> if j in order then t.jobs[j].Terminal() || Claimable(t.jobs[j], now, maxAttempts)
                      else t.jobs[j] == s.jobs[j]
  {
    if order != [] {
      var n := |order| - 1;
      var t := SweepAll(s, order[..n], now, maxAttempts);
      SweepAllClears(s, order[..n], j, now, maxAttempts);
      assert order == order[..n] + [order[n]];
      if j in SweepJob(t, order[n], now, maxAttempts).jobs {
        if order[n] == j {
          SweepSwept(t, j, now, maxAttempts);
          ExpiredIsSwept(t, j, now, maxAttempts);
        } else {
          SweepOthers(t, order[n], j, now, maxAttempts);
        }
      }
    }
  }

  /** From a to b the job is gone, has ended, was handed out again, or can be claimed at once. */
  ghost predicate PutBack(a: State, b: State, j: ID, now: Time, maxAttempts: nat) {
    j in b.store.jobs ==>
      || b.store.jobs[j].Terminal() || j in HandedOut(a, b) || Claimable(b.store.jobs[j], now, maxAttempts)
  }

  lemma CallClears(c: Call, j: ID)
    requires Proper(c) && Good(c.st) && j in c.st.store.jobs
    requires j in c.swept.store.jobs ==>
      c.swept.store.jobs[j].Terminal() || Claimable(c.swept.store.jobs[j], c.now, c.maxAttempts)
    ensures PutBack(c.st, c.after, j, c.now, c.maxAttempts)
  {
    if j in c.after.store.jobs {
      StillThere(c, j);
      if i :| 0 <= i < |c.plan.retries| && c.plan.retries[i].id == j {
        RetryHandedOut(c, i);
      } else {
        NotPickedUnchanged(c, j);
      }
    }
  }

  /** After a claim call at or past its expiry, a processing job is gone, has ended, was handed out again, or
      can be claimed at once. */
  lemma ClaimClears(st: State, plan: Plan, limit: nat, now: Time, expires: Time, maxAttempts: nat, j: ID)
    requires Good(st) && now > st.clock
    requires GoodPlan(st.store, plan, limit, now, maxAttempts) && FreshTokens(st, plan.tokens)
    requires j in st.store.jobs && Expired(st.store.jobs[j], now)
    ensures PutBack(st, Claimed(st, plan, now, expires, maxAttempts), j, now, maxAttempts)
  {
    CallProper(st, plan, limit, now, expires, maxAttempts);
    SweepAllClears(st.store, plan.sweep, j, now, maxAttempts);
    CallClears(CallOf(st, plan, limit, now, expires, maxAttempts), j);
  }
}

/** Claiming due jobs is an exact priority selection. */
module ClaimTheorems {
  import opened Identifiers
  import opened Model
  import opened Sequences
  import opened StoreSpec
  import opened Priority
  import opened Runs
  import opened RunInvariants
  import opened Lifecycle

  // ------------------------------------------------------------------ what one call hands out

  /** The jobs a call handed out: those that carry a token drawn by it. */
  ghost function HandedOut(st: State, after: State): set<ID> {
    set j | j in after.store.jobs && after.store.jobs[j].publicationToken in after.tokens
            && after.store.jobs[j].publicationToken !in st.tokens
  }

  /** The identifiers a plan stands for: rows picked again, then new jobs. */
  ghost function PlannedIds(s: Store, plan: Plan, now: Time): (ids: seq<ID>)
    requires Plannable(s, plan.births)
    ensures |ids| == |plan.retries| + |plan.births|
  {
    var births := seq(|plan.births|, i requires 0 <= i < |plan.births| => PlannedID(s, plan.births[i].id, now));
    seq(|plan.retries|, i requires 0 <= i < |plan.retries| => plan.retries[i].id) + births
  }

  /** One call with the states it goes through: swept, rows claimed again, new jobs added. */
  datatype Call = Call(st: State, plan: Plan, limit: nat, now: Time, expires: Time, maxAttempts: nat,
                       swept: State, taken: State, after: State)

  ghost function CallOf(st: State, plan: Plan, limit: nat, now: Time, expires: Time, maxAttempts: nat): Call
    requires |plan.tokens| == |plan.retries| + |plan.births|
  {
    Call(st, plan, limit, now, expires, maxAttempts, SweptState(st, plan, now, maxAttempts),
         TakenState(st, plan, now, expires, maxAttempts), Claimed(st, plan, now, expires, maxAttempts))
  }

  predicate Sized(c: Call) {
    |c.plan.tokens| == |c.plan.retries| + |c.plan.births| && |c.plan.retries| <= c.limit
  }

  datatype Stage = AfterSweep | AfterCall | Taken | Born | New | Drawn | Retries | Births

  ghost predicate StageHolds(c: Call, p: Stage)
    requires Sized(c)
  {
    var n := |c.plan.retries|;
    match p
    case AfterSweep => Good(c.swept) && c.swept.tokens == c.st.tokens
    case AfterCall => Good(c.after)
    case Taken =>
      && Distinct(c.plan.retries) && Retryable(c.swept.store, c.plan.retries)
      && TakenFrom(c.swept, c.taken, c.plan.retries, c.plan.tokens[..n], c.expires)
    case Born =>
      && Distinct(c.plan.births) && Plannable(c.taken.store, c.plan.births)
      && JobsGrow(c.taken.store, c.after.store.jobs, c.plan.births, c.plan.tokens[n..], c.now, c.expires)
    case New =>
      && c.taken.store.monitors == c.swept.store.monitors && c.taken.store.jobs.Keys == c.swept.store.jobs.Keys
      && Plannable(c.swept.store, c.plan.births)
      && (forall i :: 0 <= i < |c.plan.births| ==>
            PlannedID(c.swept.store, c.plan.births[i].id, c.now) !in c.swept.store.jobs
            && !Issued(c.st, PlannedID(c.swept.store, c.plan.births[i].id, c.now)))
    case Drawn =>
      FreshTokens(c.st, c.plan.tokens) && (forall i :: 0 <= i < |c.plan.tokens| ==> c.plan.tokens[i] in c.after.tokens)
    case Retries => TopOf(c.plan.retries, RetryPool(c.swept.store, c.now, c.maxAttempts), c.limit)
    case Births => TopOf(c.plan.births, BirthPool(c.swept.store, c.now), c.limit - n)
  }

  ghost predicate Proper(c: Call) {
    Sized(c) && forall p :: StageHolds(c, p)
  }

  lemma StageOf(c: Call, p: Stage)
    requires Proper(c)
    ensures StageHolds(c, p)
  {
  }

  lemma {:induction false} TakeAllDraws(st: State, picks: seq<Rank>, tokens: seq<ID>, expires: Time)
    requires |picks| <= |tokens| && Distinct(picks) && Retryable(st.store, picks)
    ensures forall i :: 0 <= i < |picks| ==> tokens[i] in TakeAll(st, picks, tokens, expires).tokens
  {
    if picks != [] {
      var n := |picks| - 1;
      TakeAllDraws(st, picks[..n], tokens, expires);
      TakeAllFrame(st, picks[..n], tokens, expires);
    }
  }

  lemma {:induction false} BearAllDraws(st: State, picks: seq<Rank>, tokens: seq<ID>, now: Time, expires: Time)
    requires |picks| <= |tokens| && Distinct(picks) && Plannable(st.store, picks)
    ensures forall i :: 0 <= i < |picks| ==> tokens[i] in BearAll(st, picks, tokens, now, expires).tokens
  {
    if picks != [] {
      var n := |picks| - 1;
      BearAllDraws(st, picks[..n], tokens, now, expires);
      BearAllElsewhere(st, picks[..n], tokens, now, expires);
    }
  }

  lemma DrawnForRows(st: State, plan: Plan, limit: nat, now: Time, expires: Time, maxAttempts: nat)
    requires Good(st) && now > st.clock
    requires GoodPlan(st.store, plan, limit, now, maxAttempts) && FreshTokens(st, plan.tokens)
    ensures var n, taken := |plan.retries|, TakenState(st, plan, now, expires, maxAttempts);
      (forall i :: 0 <= i < n ==> plan.tokens[..n][i] in taken.tokens) && FreshTokens(taken, plan.tokens[n..])
  {
    var n := |plan.retries|;
    TakenGood(st, plan, limit, now, expires, maxAttempts);
    TakeAllDraws(SweptState(st, plan, now, maxAttempts), plan.retries, plan.tokens[..n], expires);
    BirthTokensFresh(st, TakenState(st, plan, now, expires, maxAttempts), plan.tokens, n);
  }

  lemma DrawnTokens(st: State, plan: Plan, limit: nat, now: Time, expires: Time, maxAttempts: nat)
    requires Good(st) && now > st.clock
    requires GoodPlan(st.store, plan, limit, now, maxAttempts) && FreshTokens(st, plan.tokens)
    requires Distinct(plan.births) && Plannable(TakenState(st, plan, now, expires, maxAttempts).store, plan.births)
    ensures forall i :: 0 <= i < |plan.tokens| ==> plan.tokens[i] in Claimed(st, plan, now, expires, maxAttempts).tokens
  {
    var n := |plan.retries|;
    var after := Claimed(st, plan, now, expires, maxAttempts);
    var ready := TakenState(st, plan, now, expires, maxAttempts).(clock := now);
    DrawnForRows(st, plan, limit, now, expires, maxAttempts);
    BearAllRemembers(ready, plan.births, plan.tokens[n..], now, expires);
    BearAllDraws(ready, plan.births, plan.tokens[n..], now, expires);
    forall i | 0 <= i < |plan.tokens| ensures plan.tokens[i] in after.tokens {
      if i < n {
        assert plan.tokens[..n][i] in ready.tokens;
      } else {
        assert plan.tokens[n..][i - n] in after.tokens;
      }
    }
  }

  predicate Used(st: State, j: ID) { j in st.store.jobs || Issued(st, j) }

  lemma NewPlannedIds(ready: State, births: seq<Rank>, now: Time)
    requires Good(ready) && forall i :: 0 <= i < |births| ==> Due(ready.store, births[i].id, now)
    ensures Plannable(ready.store, births)
    ensures forall i :: 0 <= i < |births| ==>
      !Used(ready, PlannedID(ready.store, births[i].id, now))
  {
    AllPlannable(ready, births, now);
    forall i | 0 <= i < |births|
      ensures PlannedID(ready.store, births[i].id, now) !in ready.store.jobs
      ensures !Issued(ready, PlannedID(ready.store, births[i].id, now))
    {
      DueIdentifierIsNew(ready, births[i].id, now);
    }
  }

  lemma CallRows(st: State, plan: Plan, limit: nat, now: Time, expires: Time, maxAttempts: nat)
    requires Good(st) && now > st.clock
    requires GoodPlan(st.store, plan, limit, now, maxAttempts) && FreshTokens(st, plan.tokens)
    ensures var c := CallOf(st, plan, limit, now, expires, maxAttempts);
      StageHolds(c, AfterSweep) && StageHolds(c, Taken) && StageHolds(c, Retries) && StageHolds(c, Births)
  {
    TakenGood(st, plan, limit, now, expires, maxAttempts);
  }

  /** The state in which new jobs are added is good, and the picked monitors are still due. */
  lemma CallReady(st: State, plan: Plan, limit: nat, now: Time, expires: Time, maxAttempts: nat)
    requires Good(st) && now > st.clock
    requires GoodPlan(st.store, plan, limit, now, maxAttempts) && FreshTokens(st, plan.tokens)
    ensures var taken := TakenState(st, plan, now, expires, maxAttempts);
      && Good(taken.(clock := now)) && taken.planned == st.planned && taken.manuals == st.manuals
      && Distinct(plan.births) && Plannable(taken.store, plan.births)
      && (forall i :: 0 <= i < |plan.births| ==> Due(taken.store, plan.births[i].id, now))
  {
    var n := |plan.retries|;
    TakenGood(st, plan, limit, now, expires, maxAttempts);
    var swept, taken := SweptState(st, plan, now, maxAttempts), TakenState(st, plan, now, expires, maxAttempts);
    TickKeepsGood(taken, now);
    BirthsStillDue(swept, taken, plan.births, limit - n, now);
    AllPlannable(taken.(clock := now), plan.births, now);
  }

  lemma CallNew(st: State, plan: Plan, limit: nat, now: Time, expires: Time, maxAttempts: nat)
    requires Good(st) && now > st.clock
    requires GoodPlan(st.store, plan, limit, now, maxAttempts) && FreshTokens(st, plan.tokens)
    ensures var c := CallOf(st, plan, limit, now, expires, maxAttempts); StageHolds(c, New)
  {
    CallReady(st, plan, limit, now, expires, maxAttempts);
    CallRows(st, plan, limit, now, expires, maxAttempts);
    NewPlannedIds(TakenState(st, plan, now, expires, maxAttempts).(clock := now), plan.births, now);
  }

  lemma CallBorn(st: State, plan: Plan, limit: nat, now: Time, expires: Time, maxAttempts: nat)
    requires Good(st) && now > st.clock
    requires GoodPlan(st.store, plan, limit, now, maxAttempts) && FreshTokens(st, plan.tokens)
    ensures var c := CallOf(st, plan, limit, now, expires, maxAttempts); StageHolds(c, Born)
  {
    var taken, tokens := TakenState(st, plan, now, expires, maxAttempts), plan.tokens[|plan.retries|..];
    CallReady(st, plan, limit, now, expires, maxAttempts);
    BearAllFrame(taken.(clock := now), plan.births, tokens, now, expires);
  }

  /** A call on a good state is proper. */
  lemma CallProper(st: State, plan: Plan, limit: nat, now: Time, expires: Time, maxAttempts: nat)
    requires Good(st) && now > st.clock
    requires GoodPlan(st.store, plan, limit, now, maxAttempts) && FreshTokens(st, plan.tokens)
    ensures Proper(CallOf(st, plan, limit, now, expires, maxAttempts))
  {
    var c := CallOf(st, plan, limit, now, expires, maxAttempts);
    CallRows(st, plan, limit, now, expires, maxAttempts);
    CallNew(st, plan, limit, now, expires, maxAttempts);
    CallBorn(st, plan, limit, now, expires, maxAttempts);
    CallReady(st, plan, limit, now, expires, maxAttempts);
    ClaimedGood(st, plan, limit, now, expires, maxAttempts);
    DrawnTokens(st, plan, limit, now, expires, maxAttempts);
    forall p ensures StageHolds(c, p) {
      match p
      case AfterSweep =>
      case _ =>
    }
  }

  // ------------------------------------------------------------------ exact selection

  /** A job handed out is scheduled under its new token with a full publication lease. */
  predicate FreshlyClaimed(job: Job, expires: Time) {
    job.status.Scheduled? && job.leaseExpiresAt == expires && job.leaseToken == ""
  }

  /** A row not picked again keeps the record the sweep left it. */
  lemma NotPickedUnchanged(c: Call, j: ID)
    requires Proper(c) && j in c.swept.store.jobs
    requires forall i :: 0 <= i < |c.plan.retries| ==> c.plan.retries[i].id != j
    ensures j in c.after.store.jobs && c.after.store.jobs[j] == c.swept.store.jobs[j]
    ensures j !in HandedOut(c.st, c.after)
  {
    StageOf(c, AfterSweep); StageOf(c, AfterCall); StageOf(c, Taken); StageOf(c, Born); StageOf(c, New);
    FactOf(c.swept, Known); FactOf(c.after, Known);
    assert JobKnown(c.swept, j, c.swept.store.jobs[j]);
  }

  lemma RetryHandedOut(c: Call, i: nat)
    requires Proper(c) && i < |c.plan.retries|
    ensures var j := c.plan.retries[i].id;
      && j in HandedOut(c.st, c.after) && j in c.swept.store.jobs
      && c.after.store.jobs[j] == ClaimedRecord(c.swept.store.jobs[j], c.plan.tokens[i], c.expires)
  {
    StageOf(c, Taken); StageOf(c, Born); StageOf(c, New); StageOf(c, Drawn);
    assert c.plan.tokens[..|c.plan.retries|][i] == c.plan.tokens[i];
  }

  lemma BirthHandedOut(c: Call, i: nat)
    requires Proper(c) && i < |c.plan.births|
    ensures c.plan.births[i].id in c.swept.store.monitors
    ensures var j := PlannedID(c.swept.store, c.plan.births[i].id, c.now);
      && j in HandedOut(c.st, c.after) && j !in c.swept.store.jobs
      && c.after.store.jobs[j] ==
         PlannedJob(c.swept.store, c.plan.births[i].id, c.plan.tokens[|c.plan.retries| + i], c.now, c.expires)
  {
    StageOf(c, Born); StageOf(c, New); StageOf(c, Drawn);
    var n := |c.plan.retries|;
    assert c.plan.tokens[n..][i] == c.plan.tokens[n + i];
  }

  lemma NoPlannedTwice(s: Store, plan: Plan, now: Time)
    requires Plannable(s, plan.births) && Distinct(plan.retries) && Distinct(plan.births) && Retryable(s, plan.retries)
    requires forall i :: 0 <= i < |plan.births| ==> PlannedID(s, plan.births[i].id, now) !in s.jobs
    ensures NoDuplicates(PlannedIds(s, plan, now))
  {
    var ids, n := PlannedIds(s, plan, now), |plan.retries|;
    forall i, k | 0 <= i < k < |ids| ensures ids[i] != ids[k] {
      if i >= n { PlannedDistinct(s, plan.births[i - n].id, plan.births[k - n].id, now); }
    }
  }

  /** Each job handed out stands somewhere in the plan. */
  lemma HandedOutInPlan(c: Call, j: ID)
    requires Proper(c) && j in HandedOut(c.st, c.after)
    ensures Plannable(c.swept.store, c.plan.births)
    ensures j in c.swept.store.jobs ==> exists i :: 0 <= i < |c.plan.retries| && c.plan.retries[i].id == j
    ensures j !in c.swept.store.jobs ==>
      exists i :: 0 <= i < |c.plan.births| && PlannedID(c.swept.store, c.plan.births[i].id, c.now) == j
  {
    StageOf(c, New);
    if j in c.swept.store.jobs {
      if forall i :: 0 <= i < |c.plan.retries| ==> c.plan.retries[i].id != j {
        NotPickedUnchanged(c, j);
      }
    } else {
      StageOf(c, Born);
    }
  }

  lemma HandedOutPlanned(c: Call, j: ID)
    requires Proper(c) && StageHolds(c, New) && j in HandedOut(c.st, c.after)
    ensures j in PlannedIds(c.swept.store, c.plan, c.now)
  {
    var ids, n := PlannedIds(c.swept.store, c.plan, c.now), |c.plan.retries|;
    HandedOutInPlan(c, j);
    if j in c.swept.store.jobs {
      var i :| 0 <= i < n && c.plan.retries[i].id == j;
      assert ids[i] == j;
    } else {
      var i :| 0 <= i < |c.plan.births| && PlannedID(c.swept.store, c.plan.births[i].id, c.now) == j;
      assert ids[n + i] == j;
    }
  }

  lemma HandedOutCount(c: Call)
    requires Proper(c)
    ensures |HandedOut(c.st, c.after)| == |c.plan.retries| + |c.plan.births|
  {
    StageOf(c, New);
    var ids, n := PlannedIds(c.swept.store, c.plan, c.now), |c.plan.retries|;
    forall j | j in HandedOut(c.st, c.after) ensures j in ids {
      HandedOutPlanned(c, j);
    }
    forall i | 0 <= i < |ids| ensures ids[i] in HandedOut(c.st, c.after) {
      if i < n { RetryHandedOut(c, i); } else { BirthHandedOut(c, i - n); }
    }
    assert HandedOut(c.st, c.after) == Members(ids);
    StageOf(c, Taken); StageOf(c, Born);
    NoPlannedTwice(c.swept.store, c.plan, c.now);
    MembersCount(ids);
  }

  function RetryRank(s: Store, j: ID): Rank
    requires j in s.jobs
  {
    Rank(s.jobs[j].availableAt, s.jobs[j].scheduledFor, j)
  }

  function BirthRank(s: Store, m: ID): Rank
    requires m in s.monitors
  {
    Rank(s.monitors[m].nextCheckAt, 0, m)
  }

  /** The call's selection, in terms of the store `s` that the sweep leaves and the records afterwards. */
  datatype Selection = Selection(s: Store, jobs: map<ID, Job>, out: set<ID>, limit: nat, now: Time, expires: Time,
                                 maxAttempts: nat)

  ghost predicate WithinLimit(x: Selection) {
    && |x.out| <= x.limit
    && (forall j :: j in x.out ==> j in x.jobs && FreshlyClaimed(x.jobs[j], x.expires))
    && (forall j, k :: j in x.out && k in x.out && j != k ==> x.jobs[j].monitor != x.jobs[k].monitor)
  }

  /** Only eligible rows and new jobs of due monitors are handed out. */
  ghost predicate OnlyEligible(x: Selection) {
    forall j :: j in x.out ==>
      if j in x.s.jobs then Claimable(x.s.jobs[j], x.now, x.maxAttempts)
      else j in x.jobs && Due(x.s, x.jobs[j].monitor, x.now) && x.jobs[j].attempt == 0
  }

  /** An eligible row is passed over only when the limit was filled by eligible rows before it; so new jobs
      appear only after every eligible row. */
  ghost predicate RowsInOrder(x: Selection) {
    forall j :: j in x.s.jobs && Claimable(x.s.jobs[j], x.now, x.maxAttempts) && j !in x.out ==>
      |x.out| == x.limit && forall k :: k in x.out ==> k in x.s.jobs && Before(RetryRank(x.s, k), RetryRank(x.s, j))
  }

  /** A due monitor is passed over only when the limit was filled, by rows or by monitors before it. */
  ghost predicate MonitorsInOrder(x: Selection) {
    forall m :: Due(x.s, m, x.now) && (forall j :: j in x.out && j in x.jobs ==> x.jobs[j].monitor != m) ==>
      && |x.out| == x.limit
      && (forall k :: k in x.out && k !in x.s.jobs ==>
            && k in x.jobs && x.jobs[k].monitor in x.s.monitors
            && Before(BirthRank(x.s, x.jobs[k].monitor), BirthRank(x.s, m)))
  }

  ghost function SelectionOf(c: Call): Selection {
    Selection(c.swept.store, c.after.store.jobs, HandedOut(c.st, c.after), c.limit, c.now, c.expires, c.maxAttempts)
  }

  lemma SelectedRow(c: Call, j: ID)
    requires Proper(c) && j in HandedOut(c.st, c.after) && j in c.swept.store.jobs
    ensures FreshlyClaimed(c.after.store.jobs[j], c.expires)
    ensures Claimable(c.swept.store.jobs[j], c.now, c.maxAttempts) && RetryRank(c.swept.store, j) in c.plan.retries
  {
    HandedOutInPlan(c, j);
    var i :| 0 <= i < |c.plan.retries| && c.plan.retries[i].id == j;
    RetryHandedOut(c, i);
    StageOf(c, Retries); StageOf(c, AfterSweep);
    assert c.plan.retries[i] in RetryPool(c.swept.store, c.now, c.maxAttempts);
    SweptJobs(c.swept);
  }

  lemma SelectedMonitor(c: Call, j: ID)
    requires Proper(c) && j in HandedOut(c.st, c.after) && j !in c.swept.store.jobs
    ensures var job := c.after.store.jobs[j];
      && FreshlyClaimed(job, c.expires) && job.attempt == 0
      && Due(c.swept.store, job.monitor, c.now) && BirthRank(c.swept.store, job.monitor) in c.plan.births
  {
    HandedOutInPlan(c, j);
    var i :| 0 <= i < |c.plan.births| && PlannedID(c.swept.store, c.plan.births[i].id, c.now) == j;
    BirthHandedOut(c, i);
    StageOf(c, Births);
    assert c.plan.births[i] in BirthPool(c.swept.store, c.now);
  }

  lemma SelectsWithinLimit(c: Call)
    requires Proper(c)
    ensures WithinLimit(SelectionOf(c)) && OnlyEligible(SelectionOf(c))
  {
    HandedOutCount(c);
    StageOf(c, Births); StageOf(c, AfterCall);
    forall j | j in HandedOut(c.st, c.after)
      ensures FreshlyClaimed(c.after.store.jobs[j], c.expires)
      ensures if j in c.swept.store.jobs then Claimable(c.swept.store.jobs[j], c.now, c.maxAttempts)
              else Due(c.swept.store, c.after.store.jobs[j].monitor, c.now) && c.after.store.jobs[j].attempt == 0
    {
      if j in c.swept.store.jobs { SelectedRow(c, j); } else { SelectedMonitor(c, j); }
    }
    FactOf(c.after, Agreement);
    ClauseOf(c.after.store, Active);
  }

  lemma NotPicked(c: Call, j: ID)
    requires Proper(c) && j in c.swept.store.jobs && j !in HandedOut(c.st, c.after)
    ensures RetryRank(c.swept.store, j) !in c.plan.retries
  {
    if i :| 0 <= i < |c.plan.retries| && c.plan.retries[i] == RetryRank(c.swept.store, j) {
      RetryHandedOut(c, i);
    }
  }

  lemma SelectsRowsInOrder(c: Call)
    requires Proper(c)
    ensures RowsInOrder(SelectionOf(c))
  {
    StageOf(c, Retries); StageOf(c, Births);
    HandedOutCount(c);
    var s, out := c.swept.store, HandedOut(c.st, c.after);
    forall j | j in s.jobs && Claimable(s.jobs[j], c.now, c.maxAttempts) && j !in out
      ensures |out| == c.limit && forall k :: k in out ==> k in s.jobs && Before(RetryRank(s, k), RetryRank(s, j))
    {
      var x := RetryRank(s, j);
      assert x in RetryPool(s, c.now, c.maxAttempts);
      NotPicked(c, j);
      forall k | k in out ensures k in s.jobs && Before(RetryRank(s, k), x) {
        if k in s.jobs { SelectedRow(c, k); } else { SelectedMonitor(c, k); }
      }
    }
  }

  lemma NotBorn(c: Call, m: ID)
    requires Proper(c) && m in c.swept.store.monitors
    requires forall j :: j in HandedOut(c.st, c.after) && j in c.after.store.jobs ==> c.after.store.jobs[j].monitor != m
    ensures BirthRank(c.swept.store, m) !in c.plan.births
  {
    if i :| 0 <= i < |c.plan.births| && c.plan.births[i] == BirthRank(c.swept.store, m) {
      BirthHandedOut(c, i);
    }
  }

  lemma SelectsMonitorsInOrder(c: Call)
    requires Proper(c)
    ensures MonitorsInOrder(SelectionOf(c))
  {
    StageOf(c, Births);
    HandedOutCount(c);
    var s, jobs, out := c.swept.store, c.after.store.jobs, HandedOut(c.st, c.after);
    forall m | Due(s, m, c.now) && (forall j :: j in out && j in jobs ==> jobs[j].monitor != m)
      ensures |out| == c.limit
      ensures forall k :: k in out && k !in s.jobs ==>
        k in jobs && jobs[k].monitor in s.monitors && Before(BirthRank(s, jobs[k].monitor), BirthRank(s, m))
    {
      var x := BirthRank(s, m);
      assert x in BirthPool(s, c.now);
      NotBorn(c, m);
      forall k | k in out && k !in s.jobs
        ensures k in jobs && jobs[k].monitor in s.monitors && Before(BirthRank(s, jobs[k].monitor), x)
      {
        SelectedMonitor(c, k);
      }
    }
  }

  /** Claiming due jobs: at most `limit` jobs of different monitors, all under fresh tokens with full leases,
      and in exact priority order. */
  lemma ClaimIsExactSelection(st: State, plan: Plan, limit: nat, now: Time, expires: Time, maxAttempts: nat)
    requires Good(st) && now > st.clock
    requires GoodPlan(st.store, plan, limit, now, maxAttempts) && FreshTokens(st, plan.tokens)
    ensures var x := SelectionOf(CallOf(st, plan, limit, now, expires, maxAttempts));
      WithinLimit(x) && OnlyEligible(x) && RowsInOrder(x) && MonitorsInOrder(x)
  {
    CallProper(st, plan, limit, now, expires, maxAttempts);
    var c := CallOf(st, plan, limit, now, expires, maxAttempts);
    SelectsWithinLimit(c);
    SelectsRowsInOrder(c);
    SelectsMonitorsInOrder(c);
  }
}

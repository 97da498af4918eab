/** What holds in every interleaving of schedulers, workers, reconcilers and queue deletions. */
module ProtocolTheorems {
  import opened Identifiers
  import opened Model
  import opened StoreSpec
  import opened Runs
  import opened Lifecycle
  import opened RunTheorems
  import opened ClaimRuns
  import opened Protocol
  import opened ProtocolInvariants

  ghost predicate MoveHalf(h: Half, y: Sys, act: Act, w: Sys) {
    match h
    case Guard => CanStep(y, act)
    case Effect => CanStep(y, act) && w == Next(y, act)
  }

  ghost predicate Moves(y: Sys, act: Act, w: Sys) {
    forall h :: MoveHalf(h, y, act, w)
  }

  lemma MoveTaken(y: Sys, act: Act, w: Sys)
    requires Moves(y, act, w)
    ensures CanStep(y, act) && w == Next(y, act)
  {
    assert MoveHalf(Effect, y, act, w);
  }

  lemma MaximumFixed(y: Sys, act: Act)
    requires CanStep(y, act)
    ensures Next(y, act).maxAttempts == y.maxAttempts
  {
  }

  lemma MoveSound(y: Sys, act: Act, w: Sys)
    requires Sound(y) && Moves(y, act, w)
    ensures Sound(w) && w.maxAttempts == y.maxAttempts
  {
    MoveTaken(y, act, w);
    MaximumFixed(y, act);
    StepSound(y, act);
  }

  /** An interleaving from the empty system on. */
  ghost predicate Interleaving(caps: Caps, maxAttempts: nat, reconcilers: set<nat>, ys: seq<Sys>, acts: seq<Act>) {
    && caps.Valid() && maxAttempts > 0
    && |ys| == |acts| + 1 && ys[0] == Init(caps, maxAttempts, reconcilers)
    && (forall i :: 0 <= i < |acts| ==> Moves(ys[i], acts[i], ys[i + 1]))
  }

  lemma {:induction false} AlwaysSound(caps: Caps, maxAttempts: nat, rs: set<nat>, ys: seq<Sys>, acts: seq<Act>, i: nat)
    requires Interleaving(caps, maxAttempts, rs, ys, acts) && i < |ys|
    ensures Sound(ys[i]) && ys[i].maxAttempts == maxAttempts
  {
    if i == 0 {
      InitSound(caps, maxAttempts, rs);
    } else {
      AlwaysSound(caps, maxAttempts, rs, ys, acts, i - 1);
      MoveSound(ys[i - 1], acts[i - 1], ys[i]);
    }
  }

  /** The current message of a queued job: its own monitor, and the attempt after the recorded one. */
  predicate CarriesJob(m: Message, job: Job) {
    m.job == job.id && m.monitor == job.monitor && m.token == job.publicationToken && m.attempt == job.attempt + 1
  }

  ghost predicate Waiting(y: Sys, m: Message) {
    m in y.ready ||
    exists tag :: tag in y.deliveries && y.deliveries[tag].attached && !y.deliveries[tag].verdict
                  && y.deliveries[tag].message == m
  }

  lemma KnownMessageCarriesJob(y: Sys, m: Message, j: ID)
    requires Sound(y) && MessageKnown(y, m)
    requires j in y.st.store.jobs && y.st.store.jobs[j].Published() && y.st.store.jobs[j].publicationToken == m.token
    ensures CarriesJob(m, y.st.store.jobs[j])
  {
    var c := Claim(m.job, m.monitor, m.attempt - 1, m.token);
    TokenNamesJob(y, c, j);
    PromiseOf(y, ClaimP); PromiseOf(y, StoreGood);
    FactOf(y.st, Agreement);
    ClauseOf(y.st.store, Jobs);
    assert ClaimKnown(y, c);
  }

  /** No stranded job: while the queue exists, every queued job has a message under its current token
      that is in that queue or with a worker the store has not answered, and it is the job's own message. */
  lemma NoStrandedJob(caps: Caps, maxAttempts: nat, rs: set<nat>, ys: seq<Sys>, acts: seq<Act>, i: nat, j: ID)
    requires Interleaving(caps, maxAttempts, rs, ys, acts) && i < |ys|
    requires ys[i].present && j in ys[i].st.store.jobs && ys[i].st.store.jobs[j].status.Queued?
    ensures exists m :: Waiting(ys[i], m) && CarriesJob(m, ys[i].st.store.jobs[j])
  {
    AlwaysSound(caps, maxAttempts, rs, ys, acts, i);
    var y := ys[i];
    PromiseOf(y, LossP); PromiseOf(y, MessageP);
    var k := y.st.store.jobs[j].publicationToken;
    assert InFlight(y, k);
    if tag :| InHand(y, tag, k) {
      var m := y.deliveries[tag].message;
      KnownMessageCarriesJob(y, m, j);
      assert Waiting(y, m);
    } else {
      var m :| m in y.ready && m.token == k;
      KnownMessageCarriesJob(y, m, j);
      assert Waiting(y, m);
    }
  }

  /** At the instant a missing queue is declared again no job is queued: recovery came first, and nothing
      published since has been confirmed. */
  lemma NothingQueuedAtDeclare(caps: Caps, maxAttempts: nat, rs: set<nat>, ys: seq<Sys>, acts: seq<Act>, i: nat, j: ID)
    requires Interleaving(caps, maxAttempts, rs, ys, acts) && i < |acts|
    requires acts[i].Declare? && !ys[i].present
    ensures ys[i + 1].present && ys[i + 1].st == ys[i].st
    ensures j in ys[i].st.store.jobs ==> !ys[i].st.store.jobs[j].status.Queued?
  {
    AlwaysSound(caps, maxAttempts, rs, ys, acts, i);
    PromiseOf(ys[i], PhaseP); PromiseOf(ys[i], LossP);
    MoveTaken(ys[i], acts[i], ys[i + 1]);
    assert ys[i].reconcilers[acts[i].who].LockedRecovered?;
  }

  /** The assumption about deletions is needed: were the queue deleted between a reconciler's successful
      passive check and the declaration that follows it, every queued job would be stranded. */
  lemma DeletionAfterCheckStrands(y: Sys, r: nat, j: ID)
    requires y.present && r in y.reconcilers && y.reconcilers[r].Trusts()
    requires j in y.st.store.jobs && y.st.store.jobs[j].status.Queued?
    ensures Allowed(Dropped(y), Declare(r))
    ensures var w := After(Dropped(y), Declare(r), y.st); w.present && w.st == y.st && forall k :: !InFlight(w, k)
  {
    var w := After(Dropped(y), Declare(r), y.st);
    forall k, tag ensures !InHand(w, tag, k) {
      assert tag in w.deliveries ==> !w.deliveries[tag].attached;
    }
  }

  /** Attempt bound: attempts never exceed the maximum and stay below it outside processing, so a job is
      granted at most `maxAttempts` leases. */
  lemma AttemptBound(caps: Caps, maxAttempts: nat, rs: set<nat>, ys: seq<Sys>, acts: seq<Act>, i: nat, j: ID)
    requires Interleaving(caps, maxAttempts, rs, ys, acts) && i < |ys|
    ensures Grants(ys[i].st.log, j) <= maxAttempts
    ensures j in ys[i].st.store.jobs ==>
      && Grants(ys[i].st.log, j) <= ys[i].st.store.jobs[j].attempt <= maxAttempts
      && (!ys[i].st.store.jobs[j].Terminal() && !ys[i].st.store.jobs[j].status.Processing? ==>
            ys[i].st.store.jobs[j].attempt < maxAttempts)
  {
    AlwaysSound(caps, maxAttempts, rs, ys, acts, i);
    PromiseOf(ys[i], AttemptP); PromiseOf(ys[i], StoreGood);
    FactOf(ys[i].st, GrantFact);
  }

  /** What a scheduler's claim does to the store. */
  lemma ClaimDueClaims(y: Sys, act: Act, w: Sys)
    requires Sound(y) && Moves(y, act, w) && act.ClaimDue?
    ensures var op := act.op;
      && op.Claiming? && op.limit > 0 && op.now > y.st.clock && Attempts(op.maxAttempts) == y.maxAttempts
      && GoodPlan(y.st.store, op.plan, op.limit, op.now, y.maxAttempts) && FreshTokens(y.st, op.plan.tokens)
      && w.st == Claimed(y.st, op.plan, op.now, op.now + Timeout(op.timeout), y.maxAttempts)
  {
    MoveTaken(y, act, w);
    PromiseOf(y, StoreGood);
  }

  lemma ExpiredCleared(st: State, op: Op, maxAttempts: nat, after: State, j: ID)
    requires Good(st) && op.Claiming? && op.limit > 0 && op.now > st.clock
    requires GoodPlan(st.store, op.plan, op.limit, op.now, maxAttempts) && FreshTokens(st, op.plan.tokens)
    requires after == Claimed(st, op.plan, op.now, op.now + Timeout(op.timeout), maxAttempts)
    requires j in st.store.jobs && st.store.jobs[j].status.Processing? && op.now >= st.store.jobs[j].leaseExpiresAt
    ensures PutBack(st, after, j, op.now, maxAttempts)
  {
    SweptJobs(st);
    ClaimClears(st, op.plan, op.limit, op.now, op.now + Timeout(op.timeout), maxAttempts, j);
  }

  lemma ClaimDueClears(y: Sys, act: Act, w: Sys, j: ID)
    requires Sound(y) && Moves(y, act, w) && act.ClaimDue? && j in y.st.store.jobs
    requires y.st.store.jobs[j].status.Processing? && act.op.now >= y.st.store.jobs[j].leaseExpiresAt
    ensures PutBack(y.st, w.st, j, act.op.now, y.maxAttempts)
  {
    ClaimDueClaims(y, act, w);
    PromiseOf(y, StoreGood);
    ExpiredCleared(y.st, act.op, y.maxAttempts, w.st, j);
  }

  /** No job is ever stuck. A scheduled or failed one can be claimed exactly once its times have come; while the
      queue exists a queued one has its message under way; and the first claim call at or past the expiry of a
      processing one ends it, hands it out again or leaves it claimable at once. */
  lemma NeverStuck(caps: Caps, maxAttempts: nat, rs: set<nat>, ys: seq<Sys>, acts: seq<Act>, i: nat, j: ID, now: Time)
    requires Interleaving(caps, maxAttempts, rs, ys, acts) && i < |ys| && j in ys[i].st.store.jobs
    requires !ys[i].st.store.jobs[j].Terminal()
    ensures var job := ys[i].st.store.jobs[j];
      && (job.status.Scheduled? || job.status.Failed? ==>
            (Claimable(job, now, maxAttempts) <==> now >= job.availableAt && now >= job.leaseExpiresAt))
      && (job.status.Queued? && ys[i].present ==> exists m :: Waiting(ys[i], m) && CarriesJob(m, job))
    ensures var job := ys[i].st.store.jobs[j];
      i < |acts| && acts[i].ClaimDue? && job.status.Processing? && acts[i].op.now >= job.leaseExpiresAt ==>
        PutBack(ys[i].st, ys[i + 1].st, j, acts[i].op.now, maxAttempts)
  {
    AttemptBound(caps, maxAttempts, rs, ys, acts, i, j);
    var job := ys[i].st.store.jobs[j];
    if job.status.Queued? && ys[i].present {
      NoStrandedJob(caps, maxAttempts, rs, ys, acts, i, j);
    }
    if i < |acts| && acts[i].ClaimDue? && job.status.Processing? && acts[i].op.now >= job.leaseExpiresAt {
      AlwaysSound(caps, maxAttempts, rs, ys, acts, i);
      ClaimDueClears(ys[i], acts[i], ys[i + 1], j);
    }
  }

  /** The sweep of rows whose attempts are used up only ever finds expired processing rows: neither a
      failed row (in memory) nor a scheduled one (in PostgreSQL) has reached the maximum. */
  lemma ExhaustedSweepIsIdle(caps: Caps, maxAttempts: nat, rs: set<nat>, ys: seq<Sys>, acts: seq<Act>, i: nat, j: ID,
                             now: Time)
    requires Interleaving(caps, maxAttempts, rs, ys, acts) && i < |ys| && j in ys[i].st.store.jobs
    ensures !ExhaustedRetry(ys[i].st.store.jobs[j], now, maxAttempts)
    ensures ys[i].st.store.jobs[j].status.Scheduled? ==> ys[i].st.store.jobs[j].attempt < maxAttempts
  {
    AttemptBound(caps, maxAttempts, rs, ys, acts, i, j);
  }

  /** While a job is scheduled or queued, the token of a claim determines the attempt; so a callback's own
      comparison of attempts never decides anything. */
  lemma TokenDeterminesAttempt(caps: Caps, maxAttempts: nat, rs: set<nat>, ys: seq<Sys>, acts: seq<Act>, i: nat,
                               c: Claim)
    requires Interleaving(caps, maxAttempts, rs, ys, acts) && i < |ys| && c in ys[i].claims
    requires OwnsClaim(ys[i].st.store, c).Success? && ys[i].st.store.jobs[c.job].Published()
    ensures ys[i].st.store.jobs[c.job].attempt == c.attempt
  {
    AlwaysSound(caps, maxAttempts, rs, ys, acts, i);
    PromiseOf(ys[i], ClaimP);
    assert ClaimKnown(ys[i], c);
  }

  ghost predicate Occurs(log: Log, e: Event) {
    log.Then? && (log.event == e || Occurs(log.past, e))
  }

  lemma {:induction false} UsedWhenRecorded(log: Log, e: Event)
    requires UsedInForce(log) && Occurs(log, e) && e.Recorded?
    ensures e.used == e.inForce
  {
    if log.event != e { UsedWhenRecorded(log.past, e); }
  }

  /** Every recorded result was obtained with the URL, timeout and expected status in force at the moment
      it was recorded, although the worker read them before it was given the lease. */
  lemma ResultsUseConfigInForce(caps: Caps, maxAttempts: nat, rs: set<nat>, ys: seq<Sys>, acts: seq<Act>, i: nat,
                                e: Event)
    requires Interleaving(caps, maxAttempts, rs, ys, acts) && i < |ys|
    requires e.Recorded? && Occurs(ys[i].st.log, e)
    ensures e.used == e.inForce
  {
    AlwaysSound(caps, maxAttempts, rs, ys, acts, i);
    PromiseOf(ys[i], LogP);
    UsedWhenRecorded(ys[i].st.log, e);
  }
}

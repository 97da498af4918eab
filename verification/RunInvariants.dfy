/** Every operation keeps the facts about runs. */
module RunInvariants {
  import opened Identifiers
  import opened Model
  import opened Sequences
  import opened StoreSpec
  import opened StoreInvariants
  import opened Priority
  import opened Runs

  // ------------------------------------------------------------------ monitors

  lemma CreateGood(st: State, id: ID, w: Settings, urlAllowed: bool, now: Time)
    requires Good(st) && now > st.clock && id !in st.monitors
    ensures Good(DoCreate(st, id, w, urlAllowed, now))
  {
    var st' := DoCreate(st, id, w, urlAllowed, now);
    FactOf(st, Agreement); FactOf(st, Slots);
    CreateKeepsInv(st.store, id, w, urlAllowed, now);
    forall f ensures FactHolds(st', f) {
      FactOf(st, f);
      match f
      case StreakFact => ClauseOf(st.store, Open); ClauseOf(st.store, Incidents);
      case _ =>
    }
  }

  /** Removing a job from its monitor's active slot changes no origin, token or result. */
  lemma FinishContinues(s: Store, j: ID)
    requires j in s.jobs && !s.jobs[j].Terminal()
    ensures JobsContinue(s.jobs, FinishJob(s, j, Dead).jobs) && HistoryContinues(s, FinishJob(s, j, Dead))
  {
    var t := FinishJob(s, j, Dead);
    forall k | k in t.terminal ensures k in s.terminal || k == j { }
    forall k | k in t.jobs ensures k in s.jobs && t.jobs[k] == if k == j then Close(s.jobs[j], Dead) else s.jobs[k] { }
  }

  lemma KillContinues(s: Store, m: ID)
    requires Inv(s)
    ensures JobsContinue(s.jobs, KillActive(s, m).jobs) && HistoryContinues(s, KillActive(s, m))
    ensures KillActive(s, m).monitors == s.monitors && KillActive(s, m).processed == s.processed
    ensures KillActive(s, m).open == s.open && KillActive(s, m).incidents == s.incidents
    ensures KillActive(s, m).active == s.active - {m}
  {
    ClauseOf(s, Active);
    if m in s.active { FinishContinues(s, s.active[m]); }
  }

  lemma ResolveContinues(s: Store, m: ID)
    requires Inv(s)
    ensures ResolveOpen(s, m).jobs == s.jobs && ResolveOpen(s, m).active == s.active
    ensures ResolveOpen(s, m).terminal == s.terminal
    ensures ResolveOpen(s, m).monitors == s.monitors && ResolveOpen(s, m).processed == s.processed
    ensures OpenFailures(ResolveOpen(s, m).open, ResolveOpen(s, m).incidents, m) == 0
    ensures forall k :: k != m ==>
      OpenFailures(ResolveOpen(s, m).open, ResolveOpen(s, m).incidents, k) == OpenFailures(s.open, s.incidents, k)
  {
    ClauseOf(s, Open);
    if m in s.open {
      var t := ResolveOpen(s, m);
      assert forall i :: i in s.incidents && s.incidents[i].open && i != s.open[m] ==>
        i in t.incidents && t.incidents[i] == s.incidents[i];
    }
  }

  /** When one monitor's schedule and active slot change and nothing else about schedules does. */
  lemma OneMonitorSlots(a: Store, b: Store, id: ID, clock: Time)
    requires Inv(b) && JobsContinue(a.jobs, b.jobs)
    requires b.monitors.Keys == a.monitors.Keys
    requires forall m :: m in b.monitors && m != id ==> b.monitors[m] == a.monitors[m]
    requires b.active == a.active || b.active == a.active - {id}
    requires Idle(b, id) ==> b.monitors[id].nextCheckAt > clock || (Idle(a, id) && b.monitors[id] == a.monitors[id])
    ensures SlotsContinue(a, b, clock)
  {
    ClauseOf(b, Active);
    forall m | Idle(b, m) && m != id
      ensures m in a.monitors && Idle(a, m)
    {
      if m in a.active && a.active[m] in a.jobs {
        assert m in b.active && b.active[m] in b.jobs;
      }
    }
  }

  /** What does not look at the log follows the store. */
  lemma ContinuesStore(st: State, t: Store, now: Time, log: Log)
    requires Good(st) && Inv(t) && now > st.clock && t.monitors.Keys == st.store.monitors.Keys
    requires JobsContinue(st.store.jobs, t.jobs) && HistoryContinues(st.store, t)
    requires SlotsContinue(st.store, t, st.clock)
    ensures var st' := st.(store := t, clock := now, log := log);
      JobsKnown(st') && IdentifiersKnown(st') && SlotsPast(st') && HistoryEnded(st')
  {
    FactOf(st, Known); FactOf(st, Shapes); FactOf(st, Slots); FactOf(st, HistoryFact);
  }

  /** A change of meaning starts the count of failures again and leaves the other counts. */
  lemma ClearedLog(st: State, t: Store, id: ID, now: Time)
    requires Good(st) && t.monitors.Keys == st.store.monitors.Keys
    requires JobsContinue(st.store.jobs, t.jobs) && t.processed == st.store.processed
    requires OpenFailures(t.open, t.incidents, id) == 0
    requires forall m :: m != id ==>
      OpenFailures(t.open, t.incidents, m) == OpenFailures(st.store.open, st.store.incidents, m)
    ensures var st' := st.(store := t, clock := now, log := Then(st.log, Cleared(id)));
      VerdictsOnce(st') && ResultsOnce(st') && StreaksCounted(st') && GrantsCounted(st')
  {
    FactOf(st, Known); FactOf(st, VerdictFact); FactOf(st, ResultFact); FactOf(st, StreakFact); FactOf(st, GrantFact);
  }

  lemma SemanticUpdateGood(st: State, t: Store, id: ID, now: Time)
    requires Good(st) && Inv(t) && now > st.clock && id in st.store.monitors
    requires JobsContinue(st.store.jobs, t.jobs) && t.processed == st.store.processed && HistoryContinues(st.store, t)
    requires t.monitors.Keys == st.store.monitors.Keys
    requires t.monitors[id].enabled ==> t.monitors[id].nextCheckAt == now
    requires forall m :: m in t.monitors && m != id ==> t.monitors[m] == st.store.monitors[m]
    requires t.active == st.store.active - {id}
    requires OpenFailures(t.open, t.incidents, id) == 0
    requires forall m :: m != id ==>
      OpenFailures(t.open, t.incidents, m) == OpenFailures(st.store.open, st.store.incidents, m)
    ensures Good(st.(store := t, clock := now, log := Then(st.log, Cleared(id))))
  {
    OneMonitorSlots(st.store, t, id, st.clock);
    ContinuesStore(st, t, now, Then(st.log, Cleared(id)));
    ClearedLog(st, t, id, now);
  }

  lemma UpdateGood(st: State, id: ID, p: Patch, urlAllowed: bool, now: Time)
    requires Good(st) && now > st.clock
    ensures Good(DoUpdate(st, id, p, urlAllowed, now))
  {
    var (t, r) := Update(st.store, id, p, urlAllowed, now);
    FactOf(st, Agreement);
    UpdateKeepsInv(st.store, id, p, urlAllowed, now);
    if r.Success? {
      var w := Proposal(st.store.monitors[id], p);
      KillContinues(st.store, id);
      KillKeepsInv(st.store, id);
      if w.config == st.store.monitors[id].config {
        OneMonitorSlots(st.store, t, id, st.clock);
        QuietKeepsGood(st, t);
        TickKeepsGood(st.(store := t), now);
      } else {
        ResolveContinues(KillActive(st.store, id), id);
        SemanticUpdateGood(st, t, id, now);
      }
    } else {
      TickKeepsGood(st, now);
    }
  }

  lemma DeleteGood(st: State, id: ID, now: Time)
    requires Good(st) && now > st.clock
    ensures Good(DoDelete(st, id, now))
  {
    var t := Delete(st.store, id).0;
    FactOf(st, Agreement);
    ClauseOf(st.store, Active); ClauseOf(st.store, Open);
    DeleteKeepsInv(st.store, id);
    assert Quiet(st.store, t, st.clock);
    QuietKeepsGood(st, t);
    TickKeepsGood(st.(store := t), now);
  }

  // ------------------------------------------------------------------ one job, nothing new

  /** Replacing a live record by one that continues it. */
  lemma PutJobQuiet(s: Store, j: ID, job: Job, clock: Time)
    requires j in s.jobs && Continues(s.jobs[j], job)
    ensures Quiet(s, s.(jobs := s.jobs[j := job]), clock)
  {
  }

  lemma PutJobGood(st: State, j: ID, job: Job, now: Time)
    requires Good(st) && now >= st.clock && j in st.store.jobs && Continues(st.store.jobs[j], job)
    requires Inv(st.store.(jobs := st.store.jobs[j := job]))
    ensures Good(st.(store := st.store.(jobs := st.store.jobs[j := job]), clock := now))
  {
    PutJobQuiet(st.store, j, job, st.clock);
    QuietKeepsGood(st, st.store.(jobs := st.store.jobs[j := job]));
    TickKeepsGood(st.(store := st.store.(jobs := st.store.jobs[j := job])), now);
  }

  lemma ConfirmGood(st: State, c: Claim, now: Time)
    requires Good(st) && now > st.clock
    ensures Good(DoConfirm(st, c, now))
  {
    FactOf(st, Agreement);
    PublishedKeepsInv(st.store, c, now);
    if ClaimHolds(st.store, c, now) {
      PutJobGood(st, c.job, st.store.jobs[c.job].(status := Queued, leaseExpiresAt := 0), now);
    } else {
      TickKeepsGood(st, now);
    }
  }

  lemma ReleaseGood(st: State, c: Claim, now: Time)
    requires Good(st) && now > st.clock
    ensures Good(DoRelease(st, c, now))
  {
    FactOf(st, Agreement);
    ReleaseKeepsInv(st.store, c, now);
    if ClaimHolds(st.store, c, now) {
      PutJobGood(st, c.job, st.store.jobs[c.job].(leaseExpiresAt := 0, publicationToken := ""), now);
    } else {
      TickKeepsGood(st, now);
    }
  }

  lemma RecoverGood(st: State, now: Time)
    requires Good(st) && now > st.clock
    ensures Good(DoRecover(st, now))
  {
    FactOf(st, Agreement);
    RecoverKeepsInv(st.store, now);
    var t := Recover(st.store, now);
    assert Quiet(st.store, t, st.clock);
    QuietKeepsGood(st, t);
    TickKeepsGood(st.(store := t), now);
  }

  // ------------------------------------------------------------------ one job, something new

  /** From a to b one job is added or changed, with what was newly drawn for it put on record. */
  ghost predicate OneJob(a: State, b: State, j: ID) {
    && j in b.store.jobs
    && (forall k :: k in b.store.jobs && k != j ==> k in a.store.jobs && b.store.jobs[k] == a.store.jobs[k])
    && b.store.monitors == a.store.monitors && b.store.open == a.store.open
    && b.store.incidents == a.store.incidents && b.store.processed == a.store.processed
    && b.store.terminal == a.store.terminal
    && b.monitors == a.monitors && b.clock >= a.clock
    && (b.planned == a.planned || (j !in a.planned && j in b.planned && b.planned == a.planned[j := b.planned[j]]))
    && (b.manuals == a.manuals || b.manuals == a.manuals + {j})
    && (forall k :: k in a.tokens ==> k in b.tokens && b.tokens[k] == a.tokens[k])
    && "" !in b.tokens
    && (b.log == a.log || (b.log.Then? && b.log.past == a.log && b.log.event.Granted? && b.log.event.lease.job == j))
  }

  /** What the record of that job must satisfy. */
  ghost predicate JobFits(a: State, b: State, j: ID)
    requires j in b.store.jobs
  {
    var job := b.store.jobs[j];
    && JobKnown(b, j, job) && !job.status.Completed?
    && (if j in a.store.jobs
        then !a.store.jobs[j].Terminal() && job.attempt >= a.store.jobs[j].attempt + if b.log == a.log then 0 else 1
        else !Issued(a, j) && b.log == a.log)
    && (|| job.leaseToken == "" || job.leaseToken !in a.tokens
        || (j in a.store.jobs && job.leaseToken == a.store.jobs[j].leaseToken))
    && (forall m :: Idle(b.store, m) ==> Idle(a.store, m))
    && (j in b.planned && j !in a.planned ==>
          && b.planned[j].1 != 0 && j == NewCheckJobID(b.planned[j].0, b.planned[j].1, 0)
          && b.planned[j].0 in b.monitors && b.planned[j].1 <= b.clock && !Idle(b.store, b.planned[j].0))
    && (j in b.manuals && j !in a.manuals ==> RandomID("job", j))
  }

  lemma OneJobKnown(a: State, b: State, j: ID)
    requires Good(a) && OneJob(a, b, j) && JobFits(a, b, j)
    ensures JobsKnown(b)
  {
    FactOf(a, Known);
    forall k | k in b.store.jobs ensures JobKnown(b, k, b.store.jobs[k]) {
      if k != j { assert JobKnown(a, k, a.store.jobs[k]); }
    }
  }

  lemma OneJobSlots(a: State, b: State, j: ID)
    requires Good(a) && OneJob(a, b, j) && JobFits(a, b, j)
    ensures IdentifiersKnown(b) && SlotsPast(b)
  {
    FactOf(a, Shapes); FactOf(a, Slots);
  }

  lemma OneJobVerdicts(a: State, b: State, j: ID)
    requires Good(a) && OneJob(a, b, j) && JobFits(a, b, j)
    ensures VerdictsOnce(b)
  {
    FactOf(a, Known); FactOf(a, VerdictFact);
    assert forall k :: Verdicts(b.log, k) == Verdicts(a.log, k);
  }

  lemma OneJobResults(a: State, b: State, j: ID)
    requires Good(a) && OneJob(a, b, j) && JobFits(a, b, j)
    ensures ResultsOnce(b)
  {
    FactOf(a, Known); FactOf(a, ResultFact);
    assert forall k :: Results(b.log, k) == Results(a.log, k);
  }

  lemma OneJobHistory(a: State, b: State, j: ID)
    requires Good(a) && OneJob(a, b, j) && JobFits(a, b, j)
    ensures HistoryEnded(b)
  {
    FactOf(a, HistoryFact);
  }

  lemma OneJobCounted(a: State, b: State, j: ID)
    requires Good(a) && OneJob(a, b, j) && JobFits(a, b, j)
    ensures StreaksCounted(b) && GrantsCounted(b)
  {
    FactOf(a, StreakFact); FactOf(a, GrantFact); FactOf(a, Known);
    assert forall m :: Streak(b.log, m) == Streak(a.log, m);
  }

  lemma OneJobGood(a: State, b: State, j: ID)
    requires Good(a) && Inv(b.store) && OneJob(a, b, j) && JobFits(a, b, j)
    ensures Good(b)
  {
    OneJobKnown(a, b, j);
    OneJobSlots(a, b, j);
    OneJobVerdicts(a, b, j);
    OneJobResults(a, b, j);
    OneJobCounted(a, b, j);
    OneJobHistory(a, b, j);
  }

  // ------------------------------------------------------------------ claiming

  /** A live job dies; a periodic one leaves its monitor with a check planned after `clock`. */
  lemma FinishQuiet(s: Store, j: ID, t: Store, clock: Time)
    requires Inv(s) && Inv(t) && j in s.jobs && !s.jobs[j].Terminal()
    requires var dead := FinishJob(s, j, Dead);
      && t == dead.(monitors := t.monitors) && t.monitors.Keys == s.monitors.Keys
      && (forall m :: m in t.monitors && m != s.jobs[j].monitor ==> t.monitors[m] == s.monitors[m])
    requires var m := s.jobs[j].monitor;
      if s.jobs[j].kind.Periodic? then m in t.monitors ==> t.monitors[m].nextCheckAt > clock
      else t.monitors == s.monitors
    ensures Quiet(s, t, clock)
  {
    ClauseOf(s, Active);
    FinishContinues(s, j);
    OneMonitorSlots(s, t, s.jobs[j].monitor, clock);
  }

  lemma SweepQuiet(s: Store, j: ID, now: Time, maxAttempts: nat, clock: Time)
    requires Inv(s) && Inv(SweepJob(s, j, now, maxAttempts)) && now > clock
    ensures Quiet(s, SweepJob(s, j, now, maxAttempts), clock)
  {
    if j in s.jobs && (Expired(s.jobs[j], now) || ExhaustedRetry(s.jobs[j], now, maxAttempts)) {
      if s.jobs[j].attempt >= maxAttempts {
        FinishQuiet(s, j, SweepJob(s, j, now, maxAttempts), clock);
      } else {
        PutJobQuiet(s, j, Close(s.jobs[j], Failed).(availableAt := now), clock);
      }
    }
  }

  lemma {:induction false} SweepAllGood(st: State, order: seq<ID>, now: Time, maxAttempts: nat)
    requires Good(st) && now > st.clock
    ensures Good(st.(store := SweepAll(st.store, order, now, maxAttempts)))
  {
    if order != [] {
      var n := |order| - 1;
      SweepAllGood(st, order[..n], now, maxAttempts);
      var st1 := st.(store := SweepAll(st.store, order[..n], now, maxAttempts));
      FactOf(st1, Agreement);
      SweepKeepsInv(st1.store, order[n], now, maxAttempts);
      SweepQuiet(st1.store, order[n], now, maxAttempts, st.clock);
      QuietKeepsGood(st1, SweepJob(st1.store, order[n], now, maxAttempts));
    }
  }

  lemma TakeIsOneJob(st: State, j: ID, token: ID, expires: Time)
    requires JobsKnown(st) && token != "" && token !in st.tokens && j in st.store.jobs
    ensures OneJob(st, Take(st, j, token, expires), j)
  {
  }

  lemma TakeFits(st: State, j: ID, token: ID, expires: Time)
    requires JobsKnown(st) && token != "" && token !in st.tokens
    requires j in st.store.jobs && (st.store.jobs[j].status.Scheduled? || st.store.jobs[j].status.Failed?)
    ensures JobFits(st, Take(st, j, token, expires), j)
  {
    assert JobKnown(st, j, st.store.jobs[j]);
  }

  lemma TakeGood(st: State, j: ID, token: ID, expires: Time)
    requires Good(st) && token != "" && token !in st.tokens
    requires j in st.store.jobs && (st.store.jobs[j].status.Scheduled? || st.store.jobs[j].status.Failed?)
    ensures Good(Take(st, j, token, expires))
  {
    FactOf(st, Agreement); FactOf(st, Known);
    ClaimKeepsInv(st.store, j, token, expires);
    TakeIsOneJob(st, j, token, expires);
    TakeFits(st, j, token, expires);
    OneJobGood(st, Take(st, j, token, expires), j);
  }

  /** The identifier of a due check was never used: no earlier job of any run had it. */
  lemma DueIdentifierIsNew(st: State, m: ID, now: Time)
    requires Good(st) && Due(st.store, m, now)
    ensures st.store.monitors[m].nextCheckAt != 0
    ensures !Issued(st, NewCheckJobID(m, st.store.monitors[m].nextCheckAt, now))
    ensures NewCheckJobID(m, st.store.monitors[m].nextCheckAt, now) !in st.store.jobs
  {
    var next := st.store.monitors[m].nextCheckAt;
    var id := NewCheckJobID(m, next, now);
    FactOf(st, Slots); FactOf(st, Known); FactOf(st, Shapes); FactOf(st, Agreement);
    ClauseOf(st.store, Monitors);
    RandomIsNotDerived(m, next, now);
    if id in st.planned {
      JobIDInjective(m, next, now, st.planned[id].0, st.planned[id].1, 0);
    }
  }

  lemma BearGood(st: State, m: ID, token: ID, now: Time, expires: Time)
    requires Good(st) && st.clock == now && token != "" && token !in st.tokens && Due(st.store, m, now)
    ensures Good(Bear(st, m, token, now, expires))
  {
    FactOf(st, Agreement); FactOf(st, Known); FactOf(st, Slots);
    DueIdentifierIsNew(st, m, now);
    BirthKeepsInv(st.store, m, token, now, expires);
    OneJobGood(st, Bear(st, m, token, now, expires), PlannedJob(st.store, m, token, now, expires).id);
  }

  /** A random job identifier not drawn before belongs to no job, periodic or manual. */
  lemma RandomIsNew(st: State, id: ID)
    requires Good(st) && RandomID("job", id) && id !in st.manuals
    ensures !Issued(st, id) && id !in st.store.jobs
  {
    FactOf(st, Known); FactOf(st, Shapes);
    if id in st.planned { RandomIsNotDerived(st.planned[id].0, st.planned[id].1, 0); }
  }

  function WithManual(st: State, m: ID, id: ID, now: Time): State {
    var job := Job(id, m, Manual, now, Scheduled, 0, now, 0, "", "");
    st.(store := AddJob(st.store, job), clock := now, manuals := st.manuals + {id})
  }

  lemma WithManualFits(st: State, m: ID, id: ID, now: Time)
    requires JobsKnown(st) && now > st.clock && RandomID("job", id) && !Issued(st, id) && id !in st.store.jobs
    requires m in st.store.monitors && m !in st.store.active
    ensures OneJob(st, WithManual(st, m, id, now), id) && JobFits(st, WithManual(st, m, id, now), id)
  {
  }

  lemma ManualGood(st: State, m: ID, id: ID, now: Time)
    requires Good(st) && now > st.clock && RandomID("job", id) && id !in st.manuals
    ensures Good(DoRequest(st, m, id, now))
  {
    FactOf(st, Agreement); FactOf(st, Known);
    ClauseOf(st.store, Active);
    RandomIsNew(st, id);
    ManualKeepsInv(st.store, m, id, now);
    if m in st.store.monitors && m !in st.store.active {
      WithManualFits(st, m, id, now);
      OneJobGood(st, WithManual(st, m, id, now), id);
    } else {
      TickKeepsGood(st, now);
    }
  }

  // ------------------------------------------------------------------ leases

  lemma GrantFits(st: State, m: ID, j: ID, attempt: int, token: ID, now: Time, timeout: int)
    requires JobsKnown(st) && now > st.clock && token != "" && token !in st.tokens
    requires ProcessingOutcome(st.store, m, j, attempt).Success?
    ensures var t := DoGrant(st, m, j, attempt, token, now, timeout); OneJob(st, t, j) && JobFits(st, t, j)
  {
    assert JobKnown(st, j, st.store.jobs[j]);
  }

  lemma GrantGood(st: State, m: ID, j: ID, attempt: int, token: ID, now: Time, timeout: int)
    requires Good(st) && now > st.clock && token != "" && token !in st.tokens
    ensures Good(DoGrant(st, m, j, attempt, token, now, timeout))
  {
    FactOf(st, Agreement); FactOf(st, Known);
    ProcessingKeepsInv(st.store, m, j, attempt, token, now, timeout);
    if ProcessingOutcome(st.store, m, j, attempt).Success? {
      GrantFits(st, m, j, attempt, token, now, timeout);
      OneJobGood(st, DoGrant(st, m, j, attempt, token, now, timeout), j);
    } else {
      TickKeepsGood(st, now);
    }
  }

  /** A quiet change that takes the lease's token off its job settles the lease. */
  lemma SettleGood(st: State, t: Store, lease: Lease, now: Time)
    requires Good(st) && Inv(t) && Quiet(st.store, t, st.clock) && now >= st.clock
    requires lease.token != "" && lease.job in st.store.jobs && st.store.jobs[lease.job].leaseToken == lease.token
    requires lease.job in t.jobs ==> t.jobs[lease.job].leaseToken == ""
    ensures Good(st.(store := t, clock := now, log := Then(st.log, Settled(lease))))
  {
    QuietKeepsGood(st, t);
    TickKeepsGood(st.(store := t), now);
    var st1 := st.(store := t, clock := now);
    var st' := st1.(log := Then(st.log, Settled(lease)));
    FactOf(st, Known); FactOf(st, VerdictFact);
    forall f ensures FactHolds(st', f) {
      FactOf(st1, f);
    }
  }

  lemma FailGood(st: State, lease: Lease, now: Time, delay: nat, wall: Time)
    requires Good(st) && st.clock < now <= wall
    ensures Good(DoFail(st, lease, now, delay, wall))
  {
    var (t, r) := MarkFailed(st.store, lease, now, now + delay, wall);
    FactOf(st, Agreement);
    FailedKeepsInv(st.store, lease, now, now + delay, wall);
    if r.Success? {
      PutJobQuiet(st.store, lease.job, Close(st.store.jobs[lease.job], Failed).(availableAt := now + delay), st.clock);
      SettleGood(st, t, lease, wall);
    } else {
      TickKeepsGood(st, wall);
    }
  }

  lemma BuryGood(st: State, lease: Lease, now: Time, interval: nat, wall: Time)
    requires Good(st) && st.clock < now <= wall && 30 <= interval
    ensures Good(DoBury(st, lease, now, interval, wall))
  {
    var (t, r) := MarkDead(st.store, lease, now, now + interval * SECOND, wall);
    FactOf(st, Agreement);
    DeadKeepsInv(st.store, lease, now, now + interval * SECOND, wall);
    if r.Success? {
      FinishQuiet(st.store, lease.job, t, st.clock);
      SettleGood(st, t, lease, wall);
    } else {
      TickKeepsGood(st, wall);
    }
  }

  // ------------------------------------------------------------------ results

  lemma CompletedContinues(s: Store, j: ID)
    requires j in s.jobs && !s.jobs[j].Terminal() && |s.terminal| <= s.caps.jobs
    ensures var t := FinishJob(s, j, Completed);
      && (forall k :: k in t.jobs && k != j ==> k in s.jobs && t.jobs[k] == s.jobs[k])
      && (j in t.jobs ==> t.jobs[j] == Close(s.jobs[j], Completed))
  {
  }

  /** One more failure on the open incident counts for its monitor only. */
  lemma CountsUp(open: map<ID, ID>, incidents: map<ID, Incident>, m: ID, k: ID)
    requires OpenAgrees(incidents, open) && m in open
    ensures var more := incidents[open[m] := incidents[open[m]].(failures := incidents[open[m]].failures + 1)];
      OpenFailures(open, more, k) == OpenFailures(open, incidents, k) + if k == m then 1 else 0
  {
  }

  /** A new incident counts one failure for its monitor only. */
  lemma CountsOpened(open: map<ID, ID>, incidents: map<ID, Incident>, m: ID, i: ID, k: ID)
    requires OpenAgrees(incidents, open) && m !in open && i !in incidents
    ensures OpenFailures(open[m := i], incidents[i := Incident(m, true, 1)], k) ==
      OpenFailures(open, incidents, k) + if k == m then 1 else 0
  {
  }

  lemma IncidentCounted(s: Store, r: CheckRecord, incident: ID, m: ID)
    requires Inv(s) && incident !in s.incidents
    ensures var t := UpdateIncident(s, r, incident);
      OpenFailures(t.open, t.incidents, m) ==
        if m != r.monitor then OpenFailures(s.open, s.incidents, m)
        else if r.success then 0 else OpenFailures(s.open, s.incidents, m) + 1
  {
    ClauseOf(s, Open);
    if r.success {
      ResolveContinues(s, r.monitor);
    } else if r.monitor in s.open {
      CountsUp(s.open, s.incidents, r.monitor, m);
    } else {
      CountsOpened(s.open, s.incidents, r.monitor, incident, m);
    }
  }

  /** What AddCheck does to each part of the store that the facts look at. */
  ghost predicate Records(s: Store, t: Store, r: CheckRecord, now: Time)
    requires r.job in s.jobs && r.monitor in s.monitors
  {
    && (forall k :: k in t.jobs && k != r.job ==> k in s.jobs && t.jobs[k] == s.jobs[k])
    && (r.job in t.jobs ==> t.jobs[r.job] == Close(s.jobs[r.job], Completed))
    && t.active == s.active - {r.monitor}
    && t.processed == Remember(s.processed, r.job, s.caps.processed)
    && t.terminal == Remember(s.terminal, r.job, s.caps.jobs)
    && t.monitors == s.monitors[r.monitor := MonitorAfterCheck(s.monitors[r.monitor], s.jobs[r.job].kind, r, now)]
    && (forall m :: OpenFailures(t.open, t.incidents, m) ==
                    if m != r.monitor then OpenFailures(s.open, s.incidents, m)
                    else if r.success then 0 else OpenFailures(s.open, s.incidents, m) + 1)
  }

  lemma ResolveKeepsRest(s: Store, m: ID)
    ensures var t := ResolveOpen(s, m);
      && t.jobs == s.jobs && t.active == s.active && t.monitors == s.monitors
      && t.processed == s.processed && t.terminal == s.terminal
  {
    if m in s.open && s.open[m] in s.incidents {
      var i := s.open[m];
      var closed := s.(incidents := s.incidents[i := s.incidents[i].(open := false)], open := s.open - {m});
      assert ResolveOpen(s, m) == RetireIncident(closed, i);
    }
  }

  lemma IncidentKeepsRest(s: Store, r: CheckRecord, incident: ID)
    ensures var t := UpdateIncident(s, r, incident);
      && t.jobs == s.jobs && t.active == s.active && t.monitors == s.monitors
      && t.processed == s.processed && t.terminal == s.terminal
  {
    if r.success { ResolveKeepsRest(s, r.monitor); }
  }

  lemma AddCheckRecords(s: Store, r: CheckRecord, lease: Lease, incident: ID, now: Time)
    requires Inv(s) && AddCheckError(s, r, lease, now).None? && incident !in s.incidents && now != 0
    ensures Records(s, AddCheck(s, r, lease, incident, now).0, r, now)
  {
    ClauseOf(s, Windows);
    CompletedContinues(s, r.job);
    FinishKeepsInv(s, r.job, Completed);
    var done := FinishJob(s, r.job, Completed);
    var m := MonitorAfterCheck(s.monitors[r.monitor], s.jobs[r.job].kind, r, now);
    assert m.nextCheckAt != 0 by { ClauseOf(s, Monitors); }
    SetMonitorKeepsInv(done, r.monitor, m);
    var planned := done.(monitors := done.monitors[r.monitor := m]);
    ProcessedKeepsInv(planned, r.job);
    var remembered := planned.(processed := Remember(planned.processed, r.job, planned.caps.processed));
    StoreCheckKeepsInv(remembered, r);
    var kept := StoreCheck(remembered, r);
    IncidentKeepsRest(kept, r, incident);
    forall k ensures var t := UpdateIncident(kept, r, incident);
      OpenFailures(t.open, t.incidents, k) ==
        if k != r.monitor then OpenFailures(s.open, s.incidents, k)
        else if r.success then 0 else OpenFailures(s.open, s.incidents, k) + 1
    {
      IncidentCounted(kept, r, incident, k);
    }
  }

  lemma RecordedLog(log: Log, lease: Lease, e: Event)
    requires e.Recorded?
    ensures var t := Then(Then(log, Settled(lease)), e);
      && (forall k :: Verdicts(t, k) == Verdicts(log, k) + if k == lease.token then 1 else 0)
      && (forall j :: Results(t, j) == Results(log, j) + if j == e.job then 1 else 0)
      && (forall j :: Grants(t, j) == Grants(log, j))
      && (forall m :: Streak(t, m) ==
                      if m != e.monitor then Streak(log, m) else if e.success then 0 else Streak(log, m) + 1)
  {
    var settled := Then(log, Settled(lease));
    assert forall k :: Verdicts(Then(settled, e), k) == Verdicts(settled, k);
    assert forall j :: Results(settled, j) == Results(log, j);
    assert forall j :: Grants(Then(settled, e), j) == Grants(settled, j);
    assert forall m :: Streak(settled, m) == Streak(log, m);
  }

  lemma RecordedSlots(s: Store, t: Store, r: CheckRecord, now: Time, clock: Time)
    requires Inv(s) && Inv(t) && now > clock && r.job in s.jobs && r.monitor in s.monitors
    requires s.jobs[r.job].monitor == r.monitor && !s.jobs[r.job].Terminal() && Records(s, t, r, now)
    ensures SlotsContinue(s, t, clock)
  {
    ClauseOf(s, Active); ClauseOf(t, Active);
    forall m | Idle(t, m)
      ensures m in s.monitors &&
        (t.monitors[m].nextCheckAt > clock || (Idle(s, m) && t.monitors[m].nextCheckAt >= s.monitors[m].nextCheckAt))
    {
      if m != r.monitor && m in s.active {
        assert m in t.active && t.active[m] != r.job;
      }
    }
  }

  lemma RecordedOnce(st: State, t: Store, r: CheckRecord, lease: Lease, used: Config, inForce: Config, now: Time)
    requires Good(st) && now > st.clock && Inv(t)
    requires r.job in st.store.jobs && r.monitor in st.store.monitors && st.store.jobs[r.job].monitor == r.monitor
    requires lease.token != "" && st.store.jobs[r.job].leaseToken == lease.token
    requires !st.store.jobs[r.job].Terminal()
    requires Records(st.store, t, r, now)
    ensures var st' := st.(store := t, clock := now, log := Then(Then(st.log, Settled(lease)),
                           Recorded(r.job, r.monitor, r.success, used, inForce)));
      VerdictsOnce(st') && ResultsOnce(st')
  {
    RecordedLog(st.log, lease, Recorded(r.job, r.monitor, r.success, used, inForce));
    FactOf(st, Known); FactOf(st, VerdictFact); FactOf(st, ResultFact);
    assert forall k :: k in t.processed ==> k == r.job || k in st.store.processed;
  }

  lemma RecordedHistory(st: State, t: Store, r: CheckRecord, log: Log, now: Time)
    requires Good(st) && r.job in st.store.jobs && r.monitor in st.store.monitors && Records(st.store, t, r, now)
    ensures HistoryEnded(st.(store := t, clock := now, log := log))
  {
    FactOf(st, HistoryFact); FactOf(st, Known);
    forall j | j in t.terminal ensures j == r.job || j in st.store.terminal { }
  }

  lemma RecordedCounted(st: State, t: Store, r: CheckRecord, lease: Lease, used: Config, inForce: Config, now: Time)
    requires Good(st) && r.job in st.store.jobs && r.monitor in st.store.monitors && Records(st.store, t, r, now)
    ensures var st' := st.(store := t, clock := now, log := Then(Then(st.log, Settled(lease)),
                           Recorded(r.job, r.monitor, r.success, used, inForce)));
      StreaksCounted(st') && GrantsCounted(st')
  {
    RecordedLog(st.log, lease, Recorded(r.job, r.monitor, r.success, used, inForce));
    FactOf(st, StreakFact); FactOf(st, GrantFact);
  }

  lemma RecordedGood(st: State, t: Store, r: CheckRecord, lease: Lease, used: Config, inForce: Config, now: Time)
    requires Good(st) && now > st.clock && Inv(t)
    requires r.job in st.store.jobs && r.monitor in st.store.monitors && st.store.jobs[r.job].monitor == r.monitor
    requires lease.token != "" && st.store.jobs[r.job].leaseToken == lease.token
    requires !st.store.jobs[r.job].Terminal()
    requires Records(st.store, t, r, now)
    ensures Good(st.(store := t, clock := now,
                     log := Then(Then(st.log, Settled(lease)), Recorded(r.job, r.monitor, r.success, used, inForce))))
  {
    var e := Recorded(r.job, r.monitor, r.success, used, inForce);
    var st' := st.(store := t, clock := now, log := Then(Then(st.log, Settled(lease)), e));
    RecordedOnce(st, t, r, lease, used, inForce, now);
    RecordedCounted(st, t, r, lease, used, inForce, now);
    FactOf(st, Agreement);
    forall f ensures FactHolds(st', f) {
      FactOf(st, f);
      match f
      case Slots => RecordedSlots(st.store, t, r, now, st.clock);
      case HistoryFact => RecordedHistory(st, t, r, st'.log, now);
      case _ =>
    }
  }

  lemma RecordGood(st: State, r: CheckRecord, lease: Lease, used: Config, incident: ID, now: Time)
    requires Good(st) && now > st.clock && incident !in st.store.incidents
    ensures Good(DoRecord(st, r, lease, used, incident, now))
  {
    FactOf(st, Agreement);
    if AddCheckError(st.store, r, lease, now).None? {
      AddCheckKeepsInv(st.store, r, lease, incident, now);
      AddCheckRecords(st.store, r, lease, incident, now);
      RecordedGood(st, AddCheck(st.store, r, lease, incident, now).0, r, lease, used,
                   st.store.monitors[r.monitor].config, now);
    } else {
      TickKeepsGood(st, now);
    }
  }

  // ------------------------------------------------------------------ claiming as a whole

  ghost predicate Distinct(picks: seq<Rank>) {
    forall i, k :: 0 <= i < k < |picks| ==> picks[i].id != picks[k].id
  }

  /** Ranks drawn from a pool that files one rank per identifier have distinct identifiers. */
  lemma DistinctIds(picks: seq<Rank>, pool: set<Rank>)
    requires Sorted(picks) && (forall x :: x in picks ==> x in pool)
    requires forall x, y :: x in pool && y in pool && x.id == y.id ==> x == y
    ensures Distinct(picks)
  {
    forall i, k | 0 <= i < k < |picks| ensures picks[i].id != picks[k].id {
      assert picks[i] in picks && picks[k] in picks;
      BeforeTotal(picks[i], picks[k]);
    }
  }

  function ClaimedRecord(job: Job, token: ID, expires: Time): Job {
    job.(status := Scheduled, leaseExpiresAt := expires, publicationToken := token)
  }

  ghost predicate TokensDrawn(st: State, t: State, tokens: seq<ID>) {
    && (forall k :: k in st.tokens ==> k in t.tokens)
    && (forall k :: k in t.tokens ==> k in st.tokens || k in tokens)
  }

  lemma NextTokenFresh(st: State, t: State, tokens: seq<ID>, n: nat)
    requires FreshTokens(st, tokens) && n < |tokens| && TokensDrawn(st, t, tokens[..n])
    ensures tokens[n] != "" && tokens[n] !in t.tokens
  {
    assert tokens[n] !in tokens[..n];
  }

  ghost predicate Picks(picks: seq<Rank>, j: ID) {
    exists i :: 0 <= i < |picks| && picks[i].id == j
  }

  /** The picked rows are claimed, each under its own token; no other row changes. */
  ghost predicate RowsTaken(a: map<ID, Job>, b: map<ID, Job>, picks: seq<Rank>, tokens: seq<ID>, expires: Time)
    requires |picks| <= |tokens|
  {
    && b.Keys == a.Keys
    && (forall j :: j in a && !Picks(picks, j) ==> b[j] == a[j])
    && (forall i :: 0 <= i < |picks| && picks[i].id in a ==>
          b[picks[i].id] == ClaimedRecord(a[picks[i].id], tokens[i], expires))
  }

  ghost predicate TakenFrom(st: State, t: State, picks: seq<Rank>, tokens: seq<ID>, expires: Time)
    requires |picks| <= |tokens|
  {
    && t == st.(store := st.store.(jobs := t.store.jobs), tokens := t.tokens)
    && RowsTaken(st.store.jobs, t.store.jobs, picks, tokens, expires)
  }

  lemma {:induction false} TakeAllPrefix(st: State, picks: seq<Rank>, tokens: seq<ID>, expires: Time)
    requires |picks| <= |tokens|
    ensures TakeAll(st, picks, tokens[..|picks|], expires) == TakeAll(st, picks, tokens, expires)
  {
    if picks != [] {
      var n := |picks| - 1;
      TakeAllPrefix(st, picks[..n], tokens, expires);
      TakeAllPrefix(st, picks[..n], tokens[..n + 1], expires);
      assert tokens[..n + 1][..n] == tokens[..n];
    }
  }

  lemma {:induction false} TakeAllTokens(st: State, picks: seq<Rank>, tokens: seq<ID>, expires: Time)
    requires |picks| == |tokens|
    ensures TokensDrawn(st, TakeAll(st, picks, tokens, expires), tokens)
  {
    if picks != [] {
      var n := |picks| - 1;
      TakeAllTokens(st, picks[..n], tokens[..n], expires);
      TakeAllPrefix(st, picks[..n], tokens, expires);
    }
  }

  lemma PicksPrefix(picks: seq<Rank>, n: nat, j: ID)
    requires n < |picks|
    ensures Picks(picks[..n + 1], j) <==> Picks(picks[..n], j) || picks[n].id == j
    ensures Distinct(picks) ==> !Picks(picks[..n], picks[n].id)
  {
    assert forall i :: 0 <= i < n ==> picks[..n + 1][i] == picks[i] == picks[..n][i];
    assert picks[..n + 1][n] == picks[n];
  }

  lemma OneMoreRow(a: map<ID, Job>, b: map<ID, Job>, picks: seq<Rank>, tokens: seq<ID>, expires: Time)
    requires 0 < |picks| <= |tokens| && Distinct(picks)
    requires RowsTaken(a, b, picks[..|picks| - 1], tokens, expires)
    ensures var n := |picks| - 1; var j := picks[n].id;
      RowsTaken(a, if j in b then b[j := ClaimedRecord(b[j], tokens[n], expires)] else b, picks, tokens, expires)
  {
    var n := |picks| - 1;
    var id := picks[n].id;
    assert picks[..n + 1] == picks;
    forall j ensures Picks(picks, j) <==> Picks(picks[..n], j) || id == j { PicksPrefix(picks, n, j); }
    PicksPrefix(picks, n, id);
    forall i | 0 <= i < n ensures picks[..n][i] == picks[i] && picks[i].id != id { }
  }

  lemma TakeFrameStep(st: State, t: State, picks: seq<Rank>, tokens: seq<ID>, expires: Time)
    requires 0 < |picks| <= |tokens| && Distinct(picks)
    requires TakenFrom(st, t, picks[..|picks| - 1], tokens, expires)
    ensures TakenFrom(st, Take(t, picks[|picks| - 1].id, tokens[|picks| - 1], expires), picks, tokens, expires)
  {
    OneMoreRow(st.store.jobs, t.store.jobs, picks, tokens, expires);
  }

  lemma {:induction false} TakeAllFrame(st: State, picks: seq<Rank>, tokens: seq<ID>, expires: Time)
    requires |picks| <= |tokens| && Distinct(picks)
    ensures TakenFrom(st, TakeAll(st, picks, tokens, expires), picks, tokens, expires)
  {
    if picks != [] {
      var n := |picks| - 1;
      TakeAllFrame(st, picks[..n], tokens, expires);
      TakeFrameStep(st, TakeAll(st, picks[..n], tokens, expires), picks, tokens, expires);
    }
  }

  ghost predicate Retryable(s: Store, picks: seq<Rank>) {
    forall i :: 0 <= i < |picks| ==>
      && picks[i].id in s.jobs
      && (s.jobs[picks[i].id].status.Scheduled? || s.jobs[picks[i].id].status.Failed?)
  }

  /** From n claimed rows to n + 1. */
  lemma TakeOneMore(st: State, t: State, picks: seq<Rank>, tokens: seq<ID>, n: nat, expires: Time)
    requires Good(t) && n < |picks| == |tokens| && FreshTokens(st, tokens) && Distinct(picks)
    requires Retryable(st.store, picks)
    requires TakenFrom(st, t, picks[..n], tokens[..n], expires) && TokensDrawn(st, t, tokens[..n])
    ensures Good(Take(t, picks[n].id, tokens[n], expires))
  {
    NextTokenFresh(st, t, tokens, n);
    assert t.store.jobs[picks[n].id] == st.store.jobs[picks[n].id];
    TakeGood(t, picks[n].id, tokens[n], expires);
  }

  lemma PartsFresh(st: State, tokens: seq<ID>, n: nat)
    requires FreshTokens(st, tokens) && n <= |tokens|
    ensures FreshTokens(st, tokens[..n]) && FreshTokens(st, tokens[n..])
  {
  }

  lemma {:induction false} TakeAllGood(st: State, picks: seq<Rank>, tokens: seq<ID>, expires: Time)
    requires Good(st) && |picks| == |tokens| && FreshTokens(st, tokens)
    requires Distinct(picks) && Retryable(st.store, picks)
    ensures Good(TakeAll(st, picks, tokens, expires))
  {
    if picks != [] {
      var n := |picks| - 1;
      PartsFresh(st, tokens, n);
      TakeAllGood(st, picks[..n], tokens[..n], expires);
      TakeAllFrame(st, picks[..n], tokens[..n], expires);
      TakeAllTokens(st, picks[..n], tokens[..n], expires);
      TakeAllPrefix(st, picks[..n], tokens, expires);
      TakeOneMore(st, TakeAll(st, picks[..n], tokens[..n], expires), picks, tokens, n, expires);
    }
  }

  ghost predicate Plannable(s: Store, picks: seq<Rank>) {
    forall i :: 0 <= i < |picks| ==> picks[i].id in s.monitors && s.monitors[picks[i].id].nextCheckAt != 0
  }

  function PlannedID(s: Store, m: ID, now: Time): ID
    requires m in s.monitors
  {
    NewCheckJobID(m, s.monitors[m].nextCheckAt, now)
  }

  lemma PlannedDistinct(s: Store, m: ID, k: ID, now: Time)
    requires m in s.monitors && k in s.monitors && m != k
    requires s.monitors[m].nextCheckAt != 0 && s.monitors[k].nextCheckAt != 0
    ensures PlannedID(s, m, now) != PlannedID(s, k, now)
  {
    if PlannedID(s, m, now) == PlannedID(s, k, now) {
      JobIDInjective(m, s.monitors[m].nextCheckAt, now, k, s.monitors[k].nextCheckAt, now);
    }
  }

  /** The picked monitors get their planned job, each under its own token; no other job is added or changed. */
  ghost predicate JobsGrow(s: Store, jobs: map<ID, Job>, picks: seq<Rank>, tokens: seq<ID>, now: Time, expires: Time)
    requires |picks| <= |tokens| && Plannable(s, picks)
  {
    && (forall j :: j in s.jobs ==> j in jobs)
    && (forall j :: j in jobs ==>
          || (j in s.jobs && jobs[j] == s.jobs[j])
          || (exists i :: 0 <= i < |picks| && j == PlannedID(s, picks[i].id, now)))
    && (forall i :: 0 <= i < |picks| ==>
          && PlannedID(s, picks[i].id, now) in jobs
          && jobs[PlannedID(s, picks[i].id, now)] == PlannedJob(s, picks[i].id, tokens[i], now, expires))
  }

  ghost predicate ActiveGrows(a: map<ID, ID>, b: map<ID, ID>, picks: seq<Rank>) {
    forall m :: m in b && m !in a ==> exists i :: 0 <= i < |picks| && picks[i].id == m
  }

  ghost predicate BornFrom(st: State, t: State, picks: seq<Rank>, tokens: seq<ID>, now: Time, expires: Time)
    requires |picks| <= |tokens| && Plannable(st.store, picks)
  {
    && t.clock == st.clock && t.store.monitors == st.store.monitors && t.log == st.log
    && ActiveGrows(st.store.active, t.store.active, picks)
    && JobsGrow(st.store, t.store.jobs, picks, tokens, now, expires)
  }

  lemma OneMoreActive(a: map<ID, ID>, b: map<ID, ID>, picks: seq<Rank>, j: ID)
    requires picks != [] && ActiveGrows(a, b, picks[..|picks| - 1])
    ensures ActiveGrows(a, b[picks[|picks| - 1].id := j], picks)
  {
    var n := |picks| - 1;
    forall m | m in b[picks[n].id := j] && m !in a ensures exists i :: 0 <= i < |picks| && picks[i].id == m {
      if m != picks[n].id {
        var i :| 0 <= i < n && picks[..n][i].id == m;
        assert picks[i].id == m;
      }
    }
  }

  lemma OneMoreJob(s: Store, jobs: map<ID, Job>, picks: seq<Rank>, tokens: seq<ID>, now: Time, expires: Time)
    requires 0 < |picks| <= |tokens| && Plannable(s, picks)
    requires JobsGrow(s, jobs, picks[..|picks| - 1], tokens, now, expires)
    requires forall i :: 0 <= i < |picks| - 1 ==>
      PlannedID(s, picks[i].id, now) != PlannedID(s, picks[|picks| - 1].id, now)
    ensures var m, token := picks[|picks| - 1].id, tokens[|picks| - 1];
      JobsGrow(s, jobs[PlannedID(s, m, now) := PlannedJob(s, m, token, now, expires)], picks, tokens, now, expires)
  {
    var n := |picks| - 1;
    var grown := jobs[PlannedID(s, picks[n].id, now) := PlannedJob(s, picks[n].id, tokens[n], now, expires)];
    assert forall i :: 0 <= i < n ==> picks[..n][i] == picks[i];
    forall j | j in grown && !(j in s.jobs && grown[j] == s.jobs[j])
      ensures exists i :: 0 <= i < |picks| && j == PlannedID(s, picks[i].id, now)
    {
      if j != PlannedID(s, picks[n].id, now) {
        var i :| 0 <= i < n && j == PlannedID(s, picks[..n][i].id, now);
        assert picks[..n][i] == picks[i];
      }
    }
  }

  lemma BearOne(st: State, t: State, picks: seq<Rank>, tokens: seq<ID>, now: Time, expires: Time)
    requires 0 < |picks| <= |tokens| && Plannable(st.store, picks)
    requires BornFrom(st, t, picks[..|picks| - 1], tokens, now, expires)
    requires forall i :: 0 <= i < |picks| - 1 ==>
      PlannedID(st.store, picks[i].id, now) != PlannedID(st.store, picks[|picks| - 1].id, now)
    ensures BornFrom(st, Bear(t, picks[|picks| - 1].id, tokens[|picks| - 1], now, expires), picks, tokens, now, expires)
  {
    var n := |picks| - 1;
    OneMoreJob(st.store, t.store.jobs, picks, tokens, now, expires);
    OneMoreActive(st.store.active, t.store.active, picks, PlannedID(st.store, picks[n].id, now));
  }

  lemma {:induction false} BearAllFrame(st: State, picks: seq<Rank>, tokens: seq<ID>, now: Time, expires: Time)
    requires |picks| <= |tokens| && Distinct(picks) && Plannable(st.store, picks)
    ensures BornFrom(st, BearAll(st, picks, tokens, now, expires), picks, tokens, now, expires)
  {
    if picks != [] {
      var n := |picks| - 1;
      BearAllFrame(st, picks[..n], tokens, now, expires);
      var t := BearAll(st, picks[..n], tokens, now, expires);
      forall i | 0 <= i < n ensures PlannedID(st.store, picks[i].id, now) != PlannedID(st.store, picks[n].id, now) {
        PlannedDistinct(st.store, picks[i].id, picks[n].id, now);
      }
      BearOne(st, t, picks, tokens, now, expires);
    }
  }

  /** Adding jobs changes no other part of the store. */
  lemma {:induction false} BearAllElsewhere(st: State, picks: seq<Rank>, tokens: seq<ID>, now: Time, expires: Time)
    requires |picks| <= |tokens|
    ensures var t := BearAll(st, picks, tokens, now, expires).store; t == st.store.(jobs := t.jobs, active := t.active)
  {
    if picks != [] { BearAllElsewhere(st, picks[..|picks| - 1], tokens, now, expires); }
  }

  lemma {:induction false} BearAllTokens(st: State, picks: seq<Rank>, tokens: seq<ID>, now: Time, expires: Time)
    requires |picks| <= |tokens|
    ensures TokensDrawn(st, BearAll(st, picks, tokens, now, expires), tokens[..|picks|])
  {
    if picks != [] {
      var n := |picks| - 1;
      BearAllTokens(st, picks[..n], tokens, now, expires);
      assert tokens[..n + 1] == tokens[..n] + [tokens[n]];
    }
  }

  lemma AllPlannable(st: State, picks: seq<Rank>, now: Time)
    requires Good(st) && forall i :: 0 <= i < |picks| ==> Due(st.store, picks[i].id, now)
    ensures Plannable(st.store, picks)
  {
    FactOf(st, Agreement);
    ClauseOf(st.store, Monitors);
  }

  /** From n added jobs to n + 1. */
  lemma BearOneMore(st: State, t: State, picks: seq<Rank>, tokens: seq<ID>, n: nat, now: Time, expires: Time)
    requires Good(t) && t.clock == now && n < |picks| <= |tokens| && FreshTokens(st, tokens) && Distinct(picks)
    requires TokensDrawn(st, t, tokens[..n]) && Due(st.store, picks[n].id, now)
    requires t.store.monitors == st.store.monitors && ActiveGrows(st.store.active, t.store.active, picks[..n])
    ensures Good(Bear(t, picks[n].id, tokens[n], now, expires))
  {
    NextTokenFresh(st, t, tokens, n);
    forall i | 0 <= i < n ensures picks[..n][i].id != picks[n].id { assert picks[..n][i] == picks[i]; }
    assert Due(t.store, picks[n].id, now);
    BearGood(t, picks[n].id, tokens[n], now, expires);
  }

  lemma {:induction false} BearAllGood(st: State, picks: seq<Rank>, tokens: seq<ID>, now: Time, expires: Time)
    requires Good(st) && st.clock == now && |picks| <= |tokens| && FreshTokens(st, tokens)
    requires Distinct(picks) && (forall i :: 0 <= i < |picks| ==> Due(st.store, picks[i].id, now))
    ensures Good(BearAll(st, picks, tokens, now, expires))
  {
    if picks != [] {
      var n := |picks| - 1;
      assert forall i :: 0 <= i < n ==> picks[..n][i] == picks[i];
      AllPlannable(st, picks, now);
      BearAllGood(st, picks[..n], tokens, now, expires);
      BearAllFrame(st, picks[..n], tokens, now, expires);
      BearAllTokens(st, picks[..n], tokens, now, expires);
      BearOneMore(st, BearAll(st, picks[..n], tokens, now, expires), picks, tokens, n, now, expires);
    }
  }

  lemma RetriesReady(s: Store, picks: seq<Rank>, limit: nat, now: Time, maxAttempts: nat)
    requires TopOf(picks, RetryPool(s, now, maxAttempts), limit)
    ensures Distinct(picks) && Retryable(s, picks)
    ensures forall i :: 0 <= i < |picks| ==> Claimable(s.jobs[picks[i].id], now, maxAttempts)
  {
    DistinctIds(picks, RetryPool(s, now, maxAttempts));
    assert forall i :: 0 <= i < |picks| ==> picks[i] in picks;
  }

  lemma BirthsReady(s: Store, picks: seq<Rank>, limit: nat, now: Time)
    requires TopOf(picks, BirthPool(s, now), limit)
    ensures Distinct(picks)
    ensures forall i :: 0 <= i < |picks| ==> Due(s, picks[i].id, now)
  {
    DistinctIds(picks, BirthPool(s, now));
    assert forall i :: 0 <= i < |picks| ==> picks[i] in picks;
  }

  ghost function SweptState(st: State, plan: Plan, now: Time, maxAttempts: nat): State {
    st.(store := SweepAll(st.store, plan.sweep, now, maxAttempts))
  }

  ghost function TakenState(st: State, plan: Plan, now: Time, expires: Time, maxAttempts: nat): State
    requires |plan.tokens| == |plan.retries| + |plan.births|
  {
    TakeAll(SweptState(st, plan, now, maxAttempts), plan.retries, plan.tokens[..|plan.retries|], expires)
  }

  /** The state after the retries are claimed and before new jobs are added. */
  lemma TakenGood(st: State, plan: Plan, limit: nat, now: Time, expires: Time, maxAttempts: nat)
    requires Good(st) && now > st.clock
    requires GoodPlan(st.store, plan, limit, now, maxAttempts) && FreshTokens(st, plan.tokens)
    ensures var swept := SweptState(st, plan, now, maxAttempts);
      var taken := TakenState(st, plan, now, expires, maxAttempts);
      && Good(swept) && Good(taken) && Distinct(plan.retries) && Retryable(swept.store, plan.retries)
      && TakenFrom(swept, taken, plan.retries, plan.tokens[..|plan.retries|], expires)
      && TokensDrawn(st, taken, plan.tokens[..|plan.retries|])
  {
    var tokens := plan.tokens[..|plan.retries|];
    SweepAllGood(st, plan.sweep, now, maxAttempts);
    var swept := SweptState(st, plan, now, maxAttempts);
    RetriesReady(swept.store, plan.retries, limit, now, maxAttempts);
    PartsFresh(swept, plan.tokens, |plan.retries|);
    TakeAllGood(swept, plan.retries, tokens, expires);
    TakeAllFrame(swept, plan.retries, tokens, expires);
    TakeAllTokens(swept, plan.retries, tokens, expires);
  }

  lemma BirthTokensFresh(st: State, taken: State, tokens: seq<ID>, n: nat)
    requires FreshTokens(st, tokens) && n <= |tokens| && TokensDrawn(st, taken, tokens[..n])
    ensures FreshTokens(taken, tokens[n..])
  {
  }

  lemma BirthsStillDue(swept: State, taken: State, births: seq<Rank>, limit: nat, now: Time)
    requires TopOf(births, BirthPool(swept.store, now), limit)
    requires taken.store.monitors == swept.store.monitors && taken.store.active == swept.store.active
    ensures Distinct(births) && forall i :: 0 <= i < |births| ==> Due(taken.store, births[i].id, now)
  {
    BirthsReady(swept.store, births, limit, now);
  }

  lemma ClaimedGood(st: State, plan: Plan, limit: nat, now: Time, expires: Time, maxAttempts: nat)
    requires Good(st) && now > st.clock
    requires GoodPlan(st.store, plan, limit, now, maxAttempts) && FreshTokens(st, plan.tokens)
    ensures Good(Claimed(st, plan, now, expires, maxAttempts))
  {
    var n := |plan.retries|;
    TakenGood(st, plan, limit, now, expires, maxAttempts);
    var taken := TakenState(st, plan, now, expires, maxAttempts);
    TickKeepsGood(taken, now);
    BirthTokensFresh(st, taken, plan.tokens, n);
    BirthsStillDue(SweptState(st, plan, now, maxAttempts), taken, plan.births, limit - n, now);
    BearAllGood(taken.(clock := now), plan.births, plan.tokens[n..], now, expires);
  }

  lemma ClaimGood(st: State, plan: Plan, limit: int, now: Time, timeout: int, maxAttempts: int)
    requires Good(st) && now > st.clock
    requires limit > 0 ==>
      GoodPlan(st.store, plan, limit, now, Attempts(maxAttempts)) && FreshTokens(st, plan.tokens)
    ensures Good(DoClaim(st, plan, limit, now, timeout, maxAttempts))
  {
    if limit <= 0 {
      TickKeepsGood(st, now);
    } else {
      ClaimedGood(st, plan, limit, now, now + Timeout(timeout), Attempts(maxAttempts));
    }
  }

  // ------------------------------------------------------------------ runs

  /** One step of a run. */
  lemma StepGood(st: State, op: Op)
    requires Good(st) && Enabled(st, op)
    ensures Good(Do(st, op))
  {
    match op
    case Creating(id, w, urlAllowed, now) => CreateGood(st, id, w, urlAllowed, now);
    case Updating(id, patch, urlAllowed, now) => UpdateGood(st, id, patch, urlAllowed, now);
    case Deleting(id, now) => DeleteGood(st, id, now);
    case Claiming(plan, limit, now, timeout, maxAttempts) => ClaimGood(st, plan, limit, now, timeout, maxAttempts);
    case Requesting(m, id, now) => ManualGood(st, m, id, now);
    case Confirming(c, now) => ConfirmGood(st, c, now);
    case Releasing(c, now) => ReleaseGood(st, c, now);
    case Recovering(now) => RecoverGood(st, now);
    case Granting(m, j, attempt, token, now, timeout) => GrantGood(st, m, j, attempt, token, now, timeout);
    case Failing(lease, now, delay, wall) => FailGood(st, lease, now, delay, wall);
    case Burying(lease, now, interval, wall) => BuryGood(st, lease, now, interval, wall);
    case Recording(r, lease, used, incident, now) => RecordGood(st, r, lease, used, incident, now);
  }
}

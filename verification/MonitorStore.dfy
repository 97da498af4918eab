/** The in-memory store itself: maps, order lists with head indexes and the loops over them, updated in
    place. Each operation is one step of a run, recorded in the ghost field `run`. */
module MonitorStores {
  import opened Identifiers
  import opened Model
  import opened Sequences
  import opened StoreSpec
  import opened Priority
  import opened Runs
  import opened RunInvariants
  import opened RunTheorems
  import opened StoreLoops

  datatype MonitorStats = MonitorStats(checksTotal: nat, successful: nat, failed: nat, consecutiveFailure: nat,
                                       lastCheckedAt: Time, lastStatusCode: int)

  function Successes(records: seq<CheckRecord>): nat {
    if records == [] then 0 else (if records[0].success then 1 else 0) + Successes(records[1..])
  }

  datatype History = TerminalJobs | ResolvedIncidents | ProcessedJobs

  /** The order lists with their head indexes, and the set that accompanies the last. */
  datatype Lists = Lists(terminal: seq<ID>, terminalHead: nat, resolved: seq<ID>, resolvedHead: nat,
                         processedSet: set<ID>, processed: seq<ID>, processedHead: nat)

  /** The order lists are short, and the set of processed identifiers is its window. */
  ghost predicate Short(caps: Caps, l: Lists, h: History) {
    match h
    case TerminalJobs => Windowed(l.terminal, l.terminalHead, caps.jobs)
    case ResolvedIncidents => Windowed(l.resolved, l.resolvedHead, caps.incidents)
    case ProcessedJobs => SetWindow(l.processedSet, l.processed, l.processedHead, caps.processed)
  }

  ghost predicate AllShort(caps: Caps, l: Lists) {
    forall h :: Short(caps, l, h)
  }

  lemma ShortOf(caps: Caps, l: Lists, h: History)
    requires AllShort(caps, l)
    ensures Short(caps, l, h)
  {
  }

  class MonitorStore {
    const caps: Caps
    var byID: map<ID, Monitor>
    var byURL: map<string, ID>
    var checks: map<ID, seq<CheckRecord>>
    var checkJobs: map<ID, Job>
    var activeJobByMonitor: map<ID, ID>
    var terminalJobOrder: seq<ID>
    var terminalJobHead: nat
    var incidents: map<ID, Incident>
    var openIncidentByMonitor: map<ID, ID>
    var resolvedIncidentOrder: seq<ID>
    var resolvedIncidentHead: nat
    var processedJobs: set<ID>
    var processedJobOrder: seq<ID>
    var processedJobHead: nat
    ghost var run: State

    /** The store as a value: each order list stands for its window. */
    ghost function Abs(): Store
      reads this
    {
      Store(caps, byID, byURL, checks, checkJobs, activeJobByMonitor, Window(terminalJobOrder, terminalJobHead),
            incidents, openIncidentByMonitor, Window(resolvedIncidentOrder, resolvedIncidentHead),
            Window(processedJobOrder, processedJobHead))
    }

    ghost function OrderLists(): Lists
      reads this`terminalJobOrder, this`terminalJobHead, this`resolvedIncidentOrder, this`resolvedIncidentHead
      reads this`processedJobs, this`processedJobOrder, this`processedJobHead
    {
      Lists(terminalJobOrder, terminalJobHead, resolvedIncidentOrder, resolvedIncidentHead,
            processedJobs, processedJobOrder, processedJobHead)
    }

    ghost predicate Windows()
      reads this`terminalJobOrder, this`terminalJobHead, this`resolvedIncidentOrder, this`resolvedIncidentHead
      reads this`processedJobs, this`processedJobOrder, this`processedJobHead
    {
      caps.Valid() && AllShort(caps, OrderLists())
    }

    ghost predicate Valid()
      reads this
    {
      Windows() && run.store == Abs() && Good(run)
    }

    constructor (caps: Caps)
      requires caps.Valid()
      ensures Valid() && run == Initial(caps)
    {
      this.caps := caps;
      byID, byURL, checks, checkJobs, activeJobByMonitor := map[], map[], map[], map[], map[];
      terminalJobOrder, terminalJobHead := [], 0;
      incidents, openIncidentByMonitor := map[], map[];
      resolvedIncidentOrder, resolvedIncidentHead := [], 0;
      processedJobs, processedJobOrder, processedJobHead := {}, [], 0;
      run := Initial(caps);
      InitialGood(caps);
    }

    // ---------------------------------------------------------------- histories

    method RememberTerminalJob(j: ID)
      requires Windows()
      modifies this`terminalJobOrder, this`terminalJobHead, this`checkJobs
      ensures Windows() && Abs() == Retire(old(Abs()), j)
    {
      ghost var was := OrderLists();
      ShortOf(caps, was, TerminalJobs);
      var order, head, jobs := PushJob(terminalJobOrder, terminalJobHead, checkJobs, j, caps.jobs);
      terminalJobOrder, terminalJobHead, checkJobs := order, head, jobs;
      forall h ensures Short(caps, OrderLists(), h) { ShortOf(caps, was, h); }
    }

    method RememberResolvedIncident(i: ID)
      requires Windows()
      modifies this`resolvedIncidentOrder, this`resolvedIncidentHead, this`incidents
      ensures Windows() && Abs() == RetireIncident(old(Abs()), i)
    {
      ghost var was := OrderLists();
      ShortOf(caps, was, ResolvedIncidents);
      var order, head, left := PushIncident(resolvedIncidentOrder, resolvedIncidentHead, incidents, i, caps.incidents);
      resolvedIncidentOrder, resolvedIncidentHead, incidents := order, head, left;
      forall h ensures Short(caps, OrderLists(), h) { ShortOf(caps, was, h); }
    }

    method RememberProcessedJob(j: ID)
      requires Windows()
      modifies this`processedJobs, this`processedJobOrder, this`processedJobHead
      ensures Windows()
      ensures var s := old(Abs());
        Abs() == if j in s.processed then s else s.(processed := Remember(s.processed, j, caps.processed))
    {
      ghost var was := OrderLists();
      ShortOf(caps, was, ProcessedJobs);
      if j in processedJobs { return; }
      var seen, order, head := PushProcessed(processedJobs, processedJobOrder, processedJobHead, j, caps.processed);
      processedJobs, processedJobOrder, processedJobHead := seen, order, head;
      forall h ensures Short(caps, OrderLists(), h) { ShortOf(caps, was, h); }
    }

    // ---------------------------------------------------------------- monitors

    method Create(id: ID, w: Settings, urlAllowed: bool, now: Time) returns (r: Result<Monitor>)
      requires Valid() && now > run.clock && id !in run.monitors
      modifies this
      ensures Valid() && run == DoCreate(old(run), id, w, urlAllowed, now)
      ensures r == StoreSpec.Create(old(run).store, id, w, urlAllowed, now).1
    {
      CreateGood(run, id, w, urlAllowed, now);
      run := DoCreate(run, id, w, urlAllowed, now);
      if !ValidSettings(w, urlAllowed) { return Failure(InvalidMonitor); }
      var monitor := Monitor(w.config, w.interval, w.enabled, now, 0, 0);
      if w.config.url in byURL { return Failure(MonitorExists); }
      byID := byID[id := monitor];
      byURL := byURL[w.config.url := id];
      return Success(monitor);
    }

    /** Ends the monitor's active job, if any, as dead. */
    method FinishActiveJob(m: ID)
      requires Windows()
      modifies this`checkJobs, this`activeJobByMonitor, this`terminalJobOrder, this`terminalJobHead
      ensures Windows() && Abs() == KillActive(old(Abs()), m)
    {
      if m !in activeJobByMonitor { return; }
      var j := activeJobByMonitor[m];
      if j !in checkJobs {
        activeJobByMonitor := activeJobByMonitor - {m};
        return;
      }
      var job := checkJobs[j].(status := Dead, leaseExpiresAt := 0, leaseToken := "");
      activeJobByMonitor := activeJobByMonitor - {job.monitor};
      checkJobs := checkJobs[j := job];
      RememberTerminalJob(j);
    }

    method ResolveOpenIncident(m: ID)
      requires Windows()
      modifies this`incidents, this`openIncidentByMonitor, this`resolvedIncidentOrder, this`resolvedIncidentHead
      ensures Windows() && Abs() == ResolveOpen(old(Abs()), m)
    {
      if m !in openIncidentByMonitor { return; }
      var i := openIncidentByMonitor[m];
      openIncidentByMonitor := openIncidentByMonitor - {m};
      if i !in incidents { return; }
      incidents := incidents[i := incidents[i].(open := false)];
      RememberResolvedIncident(i);
    }

    /** The monitor's own record after an update. */
    method Revise(monitor: Monitor, w: Settings, now: Time) returns (updated: Monitor)
      requires w.interval >= 0
      ensures updated == MonitorAfterUpdate(monitor, w, now)
    {
      var changed := w.config != monitor.config;
      updated := monitor.(config := w.config, interval := w.interval, enabled := w.enabled);
      if w.enabled {
        if changed || !monitor.enabled {
          updated := updated.(nextCheckAt := now);
        } else if w.interval != monitor.interval {
          updated := updated.(nextCheckAt := NextCheckAfterIntervalChange(monitor.lastCheckedAt, now, w.interval));
        } else if updated.nextCheckAt < now {
          updated := updated.(nextCheckAt := now);
        }
      }
      if changed { updated := updated.(lastStatusCode := 0, lastCheckedAt := 0); }
    }

    /** The part of an update after its checks. */
    method CommitUpdate(id: ID, w: Settings, now: Time) returns (updated: Monitor)
      requires Windows() && id in byID && w.interval >= 0
      modifies this`byID, this`byURL, this`checkJobs, this`activeJobByMonitor
      modifies this`terminalJobOrder, this`terminalJobHead
      modifies this`incidents, this`openIncidentByMonitor, this`resolvedIncidentOrder, this`resolvedIncidentHead
      ensures Windows() && updated == MonitorAfterUpdate(old(byID)[id], w, now)
      ensures Abs() == AfterUpdate(old(Abs()), id, w, now)
    {
      var monitor := byID[id];
      var changed := w.config != monitor.config;
      ghost var s := Abs();
      if w.config.url != monitor.config.url {
        byURL := (byURL - {monitor.config.url})[w.config.url := id];
      }
      UpdateOrder(s, id, byURL);
      ghost var cleared := ClearedForUpdate(s, id, w);
      updated := Revise(monitor, w, now);
      if !w.enabled { FinishActiveJob(id); }
      if changed {
        ResolveOpenIncident(id);
        if w.enabled { FinishActiveJob(id); }
      }
      assert Abs() == cleared.(byURL := byURL);
      byID := byID[id := updated];
    }

    method ApplyUpdate(id: ID, p: Patch, urlAllowed: bool, now: Time) returns (r: Result<Monitor>)
      requires Windows()
      modifies this`byID, this`byURL, this`checkJobs, this`activeJobByMonitor
      modifies this`terminalJobOrder, this`terminalJobHead
      modifies this`incidents, this`openIncidentByMonitor, this`resolvedIncidentOrder, this`resolvedIncidentHead
      ensures Windows() && Abs() == StoreSpec.Update(old(Abs()), id, p, urlAllowed, now).0
      ensures r == StoreSpec.Update(old(Abs()), id, p, urlAllowed, now).1
      ensures r.Failure? ==> unchanged(this)
    {
      if id !in byID { return Failure(MonitorNotFound); }
      var w := Proposal(byID[id], p);
      if !ValidSettings(w, urlAllowed) { return Failure(InvalidMonitor); }
      if w.config.url in byURL && byURL[w.config.url] != id { return Failure(MonitorExists); }
      var updated := CommitUpdate(id, w, now);
      return Success(updated);
    }

    method Update(id: ID, p: Patch, urlAllowed: bool, now: Time) returns (r: Result<Monitor>)
      requires Valid() && now > run.clock
      modifies this
      ensures Valid() && run == DoUpdate(old(run), id, p, urlAllowed, now)
      ensures r == StoreSpec.Update(old(run).store, id, p, urlAllowed, now).1
      ensures r.Failure? ==> run == old(run).(clock := now)
    {
      UpdateGood(run, id, p, urlAllowed, now);
      r := ApplyUpdate(id, p, urlAllowed, now);
      run := DoUpdate(run, id, p, urlAllowed, now);
    }

    method CommitDelete(id: ID)
      requires Windows() && id in byID
      modifies this`byID, this`byURL, this`checks, this`checkJobs, this`activeJobByMonitor
      modifies this`incidents, this`openIncidentByMonitor
      ensures Windows() && Abs() == StoreSpec.Delete(old(Abs()), id).0
    {
      var url := byID[id].config.url;
      var jobs := DropJobs(checkJobs, id);
      var left := DropIncidents(incidents, id);
      byID, byURL, checks := byID - {id}, byURL - {url}, checks - {id};
      checkJobs, activeJobByMonitor := jobs, activeJobByMonitor - {id};
      openIncidentByMonitor, incidents := openIncidentByMonitor - {id}, left;
    }

    method Delete(id: ID, now: Time) returns (r: Result<()>)
      requires Valid() && now > run.clock
      modifies this
      ensures Valid() && run == DoDelete(old(run), id, now)
      ensures r == StoreSpec.Delete(old(run).store, id).1
    {
      DeleteGood(run, id, now);
      if id in byID {
        CommitDelete(id);
        r := Success(());
      } else {
        r := Failure(MonitorNotFound);
      }
      run := DoDelete(run, id, now);
    }

    // ---------------------------------------------------------------- claiming

    method FinishExhaustedJob(j: ID, now: Time)
      requires Windows() && j in checkJobs && !checkJobs[j].Terminal() && ActiveAgrees(checkJobs, activeJobByMonitor)
      modifies this`byID, this`checkJobs, this`activeJobByMonitor, this`terminalJobOrder, this`terminalJobHead
      ensures Windows() && Abs() == Exhaust(old(Abs()), j, now)
    {
      ghost var s := Abs();
      var job := checkJobs[j].(status := Dead, leaseExpiresAt := 0, leaseToken := "");
      checkJobs := checkJobs[j := job];
      if job.monitor in activeJobByMonitor && activeJobByMonitor[job.monitor] == j {
        activeJobByMonitor := activeJobByMonitor - {job.monitor};
      }
      RememberTerminalJob(j);
      assert Abs() == FinishJob(s, j, Dead);
      if !job.kind.Periodic? || job.monitor !in byID { return; }
      var monitor := byID[job.monitor];
      byID := byID[job.monitor := monitor.(nextCheckAt := now + monitor.interval * SECOND)];
    }

    method SweepOne(j: ID, now: Time, maxAttempts: nat)
      requires Windows() && ActiveAgrees(checkJobs, activeJobByMonitor)
      modifies this`byID, this`checkJobs, this`activeJobByMonitor, this`terminalJobOrder, this`terminalJobHead
      ensures Windows() && Abs() == SweepJob(old(Abs()), j, now, maxAttempts)
    {
      if j !in checkJobs { return; }
      var job := checkJobs[j];
      var processingExpired := job.status.Processing? && job.leaseExpiresAt != 0 && job.leaseExpiresAt <= now;
      var failedExhausted := job.status.Failed? && job.availableAt <= now && job.attempt >= maxAttempts;
      if !processingExpired && !failedExhausted { return; }
      if job.attempt >= maxAttempts {
        FinishExhaustedJob(j, now);
        return;
      }
      checkJobs := checkJobs[j := job.(status := Failed, availableAt := now, leaseExpiresAt := 0, leaseToken := "")];
    }

    /** The sweep meets the rows in the order the map yields them; a row evicted meanwhile is not met. */
    method SweepRows(now: Time, maxAttempts: nat) returns (ghost order: seq<ID>)
      requires Valid() && now > run.clock
      modifies this`byID, this`checkJobs, this`activeJobByMonitor, this`terminalJobOrder, this`terminalJobHead
      ensures Windows() && Abs() == SweepAll(old(Abs()), order, now, maxAttempts)
      ensures (forall j :: j in order <==> j in old(checkJobs)) && NoDuplicates(order)
    {
      var rows := Enumerate(checkJobs.Keys);
      order := rows;
      var i := 0;
      while i < |rows|
        invariant 0 <= i <= |rows| && Windows() && Abs() == SweepAll(old(Abs()), rows[..i], now, maxAttempts)
      {
        SweptActive(run, rows[..i], now, maxAttempts);
        SweepOne(rows[i], now, maxAttempts);
        assert rows[..i + 1][..i] == rows[..i];
        i := i + 1;
      }
      assert rows[..i] == rows;
    }

    method ClaimRows(limit: nat, now: Time, maxAttempts: nat, tokens: seq<ID>, expires: Time, ghost base: State)
      returns (claimed: seq<Job>, ghost retries: seq<Rank>)
      requires Windows() && Abs() == base.store && |tokens| >= limit
      modifies this`checkJobs
      ensures Windows() && TopOf(retries, RetryPool(base.store, now, maxAttempts), limit)
      ensures RowRecords(base.store, retries, tokens, expires, claimed) && |retries| <= limit
      ensures Abs() == TakeAll(base, retries, tokens, expires).store
    {
      var jobs;
      jobs, claimed, retries := PickRows(checkJobs, limit, now, maxAttempts, tokens, expires, base);
      checkJobs := jobs;
    }

    method ClaimMonitors(limit: nat, now: Time, tokens: seq<ID>, expires: Time, ghost base: State)
      returns (claimed: seq<Job>, ghost births: seq<Rank>)
      requires Windows() && Abs() == base.store && |tokens| >= limit && MonitorsAgree(base.store.monitors)
      modifies this`checkJobs, this`activeJobByMonitor
      ensures Windows() && TopOf(births, BirthPool(base.store, now), limit)
      ensures BirthRecords(base.store, births, tokens, now, expires, claimed) && |births| <= limit
      ensures Abs() == BearAll(base, births, tokens, now, expires).store
    {
      var monitors := MonitorRanks(byID);
      var sorted := Sort(monitors);
      SortedMonitors(base.store, sorted);
      var jobs, active, born, picked :=
        BearJobs(byID, checkJobs, activeJobByMonitor, sorted, limit, tokens, now, expires, base);
      checkJobs, activeJobByMonitor, claimed, births := jobs, active, born, picked;
      BearAllElsewhere(base, births, tokens, now, expires);
    }

    method ClaimUpTo(limit: nat, now: Time, expires: Time, maxAttempts: nat,
                     tokens: seq<ID>) returns (claimed: seq<Job>, ghost plan: Plan)
      requires Valid() && now > run.clock && |tokens| >= limit && FreshTokens(run, tokens)
      modifies this`byID, this`checkJobs, this`activeJobByMonitor, this`terminalJobOrder, this`terminalJobHead
      ensures Windows() && GoodPlan(run.store, plan, limit, now, maxAttempts) && FreshTokens(run, plan.tokens)
      ensures Abs() == Claimed(run, plan, now, expires, maxAttempts).store
      ensures HandedOutIs(run, Claimed(run, plan, now, expires, maxAttempts), claimed)
    {
      ghost var order := SweepRows(now, maxAttempts);
      SweepAllGood(run, order, now, maxAttempts);
      ghost var swept := run.(store := Abs());
      var rows;
      ghost var retries;
      rows, retries := ClaimRows(limit, now, maxAttempts, tokens, expires, swept);
      ghost var taken := TakeAll(swept, retries, tokens, expires).(clock := now);
      TakenKeeps(swept, retries, limit, tokens, now, expires, maxAttempts);
      var born;
      ghost var births;
      born, births := ClaimMonitors(limit - |rows|, now, tokens[|rows|..], expires, taken);
      plan := Plan(order, retries, births, tokens[..|rows| + |births|]);
      PlanAssembled(run, swept, taken, plan, limit, now, expires, maxAttempts, tokens);
      RecordsWithinPlan(swept.store, taken.store, plan, tokens, now, expires, rows, born);
      RecordsOfClaim(run, plan, limit, now, expires, maxAttempts, rows, born);
      claimed := rows + born;
    }

    method ClaimDueJobs(limit: int, now: Time, timeout: int, maxAttempts: int, tokens: seq<ID>)
      returns (claimed: seq<Job>, ghost plan: Plan)
      requires Valid() && now > run.clock && |tokens| >= limit && FreshTokens(run, tokens)
      modifies this
      ensures Valid()
      ensures limit > 0 ==>
        GoodPlan(old(run).store, plan, limit, now, Attempts(maxAttempts)) && FreshTokens(old(run), plan.tokens)
      ensures |plan.tokens| == |plan.retries| + |plan.births|
      ensures run == DoClaim(old(run), plan, limit, now, timeout, maxAttempts)
      ensures HandedOutIs(old(run), run, claimed)
    {
      if limit <= 0 {
        TickKeepsGood(run, now);
        NothingHandedOut(run, now);
        run := run.(clock := now);
        return [], Plan([], [], [], []);
      }
      var expires, n := now + Timeout(timeout), Attempts(maxAttempts);
      claimed, plan := ClaimUpTo(limit, now, expires, n, tokens);
      ClaimedGood(run, plan, limit, now, expires, n);
      run := Claimed(run, plan, now, expires, n);
    }

    // ---------------------------------------------------------------- one job

    method ApplyManual(m: ID, id: ID, now: Time) returns (r: Result<(Job, bool)>)
      requires Windows()
      modifies this`checkJobs, this`activeJobByMonitor
      ensures Windows() && Abs() == CreateManual(old(Abs()), m, id, now).0
      ensures r == CreateManual(old(Abs()), m, id, now).1
    {
      if m !in byID { return Failure(MonitorNotFound); }
      if m in activeJobByMonitor {
        var j := activeJobByMonitor[m];
        if j in checkJobs { return Success((checkJobs[j], false)); }
        activeJobByMonitor := activeJobByMonitor - {m};
      }
      var job := Job(id, m, Manual, now, Scheduled, 0, now, 0, "", "");
      checkJobs := checkJobs[id := job];
      activeJobByMonitor := activeJobByMonitor[m := id];
      assert activeJobByMonitor == old(activeJobByMonitor)[m := id];
      return Success((job, true));
    }

    method CreateManualJob(m: ID, id: ID, now: Time) returns (r: Result<(Job, bool)>)
      requires Valid() && now > run.clock && RandomID("job", id) && id !in run.manuals
      modifies this
      ensures Valid() && run == DoRequest(old(run), m, id, now)
      ensures r == CreateManual(old(run).store, m, id, now).1
    {
      ManualGood(run, m, id, now);
      r := ApplyManual(m, id, now);
      run := DoRequest(run, m, id, now);
    }

    method PublicationJob(c: Claim) returns (r: Result<Job>)
      requires Windows()
      ensures r == OwnsClaim(Abs(), c)
    {
      if c.monitor !in byID { return Failure(MonitorNotFound); }
      if c.job !in checkJobs || checkJobs[c.job].monitor != c.monitor || c.token == ""
         || checkJobs[c.job].publicationToken != c.token {
        return Failure(StaleJob);
      }
      return Success(checkJobs[c.job]);
    }

    method MarkJobPublished(c: Claim, now: Time) returns (r: Result<()>)
      requires Valid() && now > run.clock
      modifies this
      ensures Valid() && run == DoConfirm(old(run), c, now)
      ensures r == MarkPublished(old(run).store, c, now).1
    {
      ConfirmGood(run, c, now);
      var owner := PublicationJob(c);
      run := DoConfirm(run, c, now);
      if owner.Failure? { return Failure(owner.error); }
      var job := owner.value;
      if !job.status.Scheduled? { return Success(()); }
      if job.attempt != c.attempt || job.leaseExpiresAt == 0 || job.leaseExpiresAt <= now { return Failure(StaleJob); }
      checkJobs := checkJobs[c.job := job.(status := Queued, leaseExpiresAt := 0)];
      return Success(());
    }

    method ReleaseJobPublish(c: Claim, now: Time) returns (r: Result<()>)
      requires Valid() && now > run.clock
      modifies this
      ensures Valid() && run == DoRelease(old(run), c, now)
      ensures r == ReleasePublish(old(run).store, c, now).1
    {
      ReleaseGood(run, c, now);
      var owner := PublicationJob(c);
      run := DoRelease(run, c, now);
      if owner.Failure? { return Failure(owner.error); }
      var job := owner.value;
      if !job.status.Scheduled? { return Success(()); }
      if job.attempt != c.attempt || job.leaseExpiresAt == 0 || job.leaseExpiresAt <= now { return Failure(StaleJob); }
      checkJobs := checkJobs[c.job := job.(leaseExpiresAt := 0, publicationToken := "")];
      return Success(());
    }

    method RecoverQueuedJobsAfterTopologyLoss(now: Time) returns (recovered: nat)
      requires Valid() && now > run.clock
      modifies this
      ensures Valid() && run == DoRecover(old(run), now)
      ensures recovered == |PublishedIn(old(checkJobs), old(checkJobs).Keys)|
    {
      RecoverGood(run, now);
      var jobs;
      jobs, recovered := RecoverRows(checkJobs, now);
      checkJobs := jobs;
      run := DoRecover(run, now);
    }

    method ActiveJobOf(m: ID, j: ID) returns (r: Result<Job>)
      requires Windows()
      ensures r == ActiveJob(Abs(), m, j)
    {
      if m !in byID { return Failure(MonitorNotFound); }
      if m !in activeJobByMonitor || activeJobByMonitor[m] != j { return Failure(StaleJob); }
      if j !in checkJobs || checkJobs[j].monitor != m { return Failure(StaleJob); }
      return Success(checkJobs[j]);
    }

    method MarkJobProcessing(m: ID, j: ID, attempt: int, token: ID, now: Time, timeout: int) returns (r: Result<Lease>)
      requires Valid() && now > run.clock && token != "" && token !in run.tokens
      modifies this
      ensures Valid() && run == DoGrant(old(run), m, j, attempt, token, now, timeout)
      ensures r == MarkProcessing(old(run).store, m, j, attempt, token, now, timeout).1
    {
      GrantGood(run, m, j, attempt, token, now, timeout);
      var found := ActiveJobOf(m, j);
      run := DoGrant(run, m, j, attempt, token, now, timeout);
      if found.Failure? { return Failure(found.error); }
      var job := found.value;
      match job.status {
        case Scheduled => if attempt <= job.attempt { return Failure(StaleJob); }
        case Queued => if attempt <= job.attempt { return Failure(StaleJob); }
        case Processing => return Failure(AlreadyProcessing);
        case _ => return Failure(StaleJob);
      }
      var raised := if attempt < 1 then 1 else attempt;
      raised := if job.attempt < raised then raised else job.attempt;
      var expires := now + Timeout(timeout);
      job := job.(status := Processing, attempt := raised, leaseExpiresAt := expires, leaseToken := token);
      checkJobs := checkJobs[j := job];
      return Success(Lease(j, m, job.attempt, token));
    }

    method MarkJobFailed(lease: Lease, now: Time, delay: nat, wall: Time) returns (r: Result<()>)
      requires Valid() && run.clock < now <= wall
      modifies this
      ensures Valid() && run == DoFail(old(run), lease, now, delay, wall)
      ensures r == MarkFailed(old(run).store, lease, now, now + delay, wall).1
    {
      FailGood(run, lease, now, delay, wall);
      var found := ActiveJobOf(lease.monitor, lease.job);
      run := DoFail(run, lease, now, delay, wall);
      if found.Failure? { return Failure(found.error); }
      if !OwnsLease(found.value, lease, now) || found.value.leaseExpiresAt <= wall { return Failure(StaleJob); }
      var job := found.value.(status := Failed, availableAt := now + delay, leaseExpiresAt := 0, leaseToken := "");
      checkJobs := checkJobs[lease.job := job];
      return Success(());
    }

    method ApplyDead(lease: Lease, now: Time, nextCheckAt: Time, wall: Time) returns (r: Result<()>)
      requires Windows()
      modifies this`byID, this`checkJobs, this`activeJobByMonitor, this`terminalJobOrder, this`terminalJobHead
      ensures Windows() && Abs() == MarkDead(old(Abs()), lease, now, nextCheckAt, wall).0
      ensures r == MarkDead(old(Abs()), lease, now, nextCheckAt, wall).1
    {
      var found := ActiveJobOf(lease.monitor, lease.job);
      if found.Failure? { return Failure(found.error); }
      if !OwnsLease(found.value, lease, now) || found.value.leaseExpiresAt <= wall { return Failure(StaleJob); }
      checkJobs := checkJobs[lease.job := found.value.(status := Dead, leaseExpiresAt := 0, leaseToken := "")];
      activeJobByMonitor := activeJobByMonitor - {lease.monitor};
      RememberTerminalJob(lease.job);
      if found.value.kind.Periodic? {
        byID := byID[lease.monitor := byID[lease.monitor].(nextCheckAt := nextCheckAt)];
      }
      return Success(());
    }

    method MarkJobDead(lease: Lease, now: Time, interval: nat, wall: Time) returns (r: Result<()>)
      requires Valid() && run.clock < now <= wall && 30 <= interval
      modifies this
      ensures Valid() && run == DoBury(old(run), lease, now, interval, wall)
      ensures r == MarkDead(old(run).store, lease, now, now + interval * SECOND, wall).1
    {
      BuryGood(run, lease, now, interval, wall);
      r := ApplyDead(lease, now, now + interval * SECOND, wall);
      run := DoBury(run, lease, now, interval, wall);
    }

    // ---------------------------------------------------------------- results

    method UpdateIncidentOf(r: CheckRecord, incident: ID)
      requires Windows() && OpenAgrees(incidents, openIncidentByMonitor)
      modifies this`incidents, this`openIncidentByMonitor, this`resolvedIncidentOrder, this`resolvedIncidentHead
      ensures Windows() && Abs() == UpdateIncident(old(Abs()), r, incident)
    {
      if r.success {
        if r.monitor !in openIncidentByMonitor { return; }
        var i := openIncidentByMonitor[r.monitor];
        incidents := incidents[i := incidents[i].(open := false)];
        openIncidentByMonitor := openIncidentByMonitor - {r.monitor};
        RememberResolvedIncident(i);
        return;
      }
      if r.monitor in openIncidentByMonitor {
        var i := openIncidentByMonitor[r.monitor];
        incidents := incidents[i := incidents[i].(failures := incidents[i].failures + 1)];
        return;
      }
      incidents := incidents[incident := Incident(r.monitor, true, 1)];
      openIncidentByMonitor := openIncidentByMonitor[r.monitor := incident];
    }

    method CompleteJob(j: ID)
      requires Windows() && j in checkJobs && j !in Window(processedJobOrder, processedJobHead)
      modifies this`checkJobs, this`activeJobByMonitor, this`terminalJobOrder, this`terminalJobHead
      modifies this`processedJobs, this`processedJobOrder, this`processedJobHead
      ensures Windows()
      ensures var s := old(Abs());
        Abs() == FinishJob(s, j, Completed).(processed := Remember(s.processed, j, caps.processed))
    {
      ghost var s := Abs();
      ghost var processed := Remember(s.processed, j, caps.processed);
      RememberProcessedJob(j);
      var job := checkJobs[j].(status := Completed, leaseExpiresAt := 0, leaseToken := "");
      checkJobs := checkJobs[j := job];
      activeJobByMonitor := activeJobByMonitor - {job.monitor};
      ghost var t := s.(processed := processed);
      assert Abs() == t.(jobs := t.jobs[j := Close(t.jobs[j], Completed)], active := t.active - {t.jobs[j].monitor});
      RememberTerminalJob(j);
      assert Abs() == FinishJob(t, j, Completed);
      FinishIgnoresProcessed(s, j, processed);
    }

    /** The part of recording a result after its checks. */
    method CommitCheck(r: CheckRecord, incident: ID, now: Time) returns (monitor: Monitor)
      requires Windows() && OpenAgrees(incidents, openIncidentByMonitor)
      requires r.monitor in byID && r.job in checkJobs && checkJobs[r.job].monitor == r.monitor
      requires r.job !in Window(processedJobOrder, processedJobHead)
      modifies this`byID, this`checks, this`checkJobs, this`activeJobByMonitor
      modifies this`terminalJobOrder, this`terminalJobHead
      modifies this`incidents, this`openIncidentByMonitor, this`resolvedIncidentOrder, this`resolvedIncidentHead
      modifies this`processedJobs, this`processedJobOrder, this`processedJobHead
      ensures Windows() && monitor == MonitorAfterCheck(old(byID)[r.monitor], old(checkJobs)[r.job].kind, r, now)
      ensures Abs() == AfterCheck(old(Abs()), r, incident, monitor)
    {
      ghost var s := Abs();
      var kind := checkJobs[r.job].kind;
      CompleteJob(r.job);
      monitor := Refresh(byID[r.monitor], kind, r, now);
      byID := byID[r.monitor := monitor];
      var records := KeepLatest(if r.monitor in checks then checks[r.monitor] else [], r, caps.checks);
      checks := checks[r.monitor := records];
      ghost var done := FinishJob(s, r.job, Completed);
      assert Abs() == StoreCheck(done.(processed := Remember(done.processed, r.job, done.caps.processed),
                                       monitors := done.monitors[r.monitor := monitor]), r);
      UpdateIncidentOf(r, incident);
    }

    method ApplyCheck(r: CheckRecord, lease: Lease, incident: ID, now: Time) returns (result: Result<Monitor>)
      requires Windows() && OpenAgrees(incidents, openIncidentByMonitor)
      modifies this`byID, this`checks, this`checkJobs, this`activeJobByMonitor
      modifies this`terminalJobOrder, this`terminalJobHead
      modifies this`incidents, this`openIncidentByMonitor, this`resolvedIncidentOrder, this`resolvedIncidentHead
      modifies this`processedJobs, this`processedJobOrder, this`processedJobHead
      ensures Windows() && Abs() == StoreSpec.AddCheck(old(Abs()), r, lease, incident, now).0
      ensures result == StoreSpec.AddCheck(old(Abs()), r, lease, incident, now).1
    {
      if r.monitor !in byID { return Failure(MonitorNotFound); }
      if r.job == "" { return Failure(JobIDRequired); }
      if r.job !in checkJobs || checkJobs[r.job].monitor != r.monitor { return Failure(StaleJob); }
      if checkJobs[r.job].status.Completed? { return Failure(DuplicateJob); }
      if !OwnsLease(checkJobs[r.job], lease, now) { return Failure(StaleJob); }
      ShortOf(caps, OrderLists(), ProcessedJobs);
      if r.job in processedJobs { return Failure(DuplicateJob); }
      var monitor := CommitCheck(r, incident, now);
      return Success(monitor);
    }

    method AddCheck(r: CheckRecord, lease: Lease, ghost used: Config, incident: ID,
                    now: Time) returns (result: Result<Monitor>)
      requires Valid() && now > run.clock && incident !in run.store.incidents
      modifies this
      ensures Valid() && run == DoRecord(old(run), r, lease, used, incident, now)
      ensures result == StoreSpec.AddCheck(old(run).store, r, lease, incident, now).1
    {
      RecordGood(run, r, lease, used, incident, now);
      FactOf(run, Agreement);
      ClauseOf(run.store, Open);
      result := ApplyCheck(r, lease, incident, now);
      run := DoRecord(run, r, lease, used, incident, now);
    }

    // ---------------------------------------------------------------- figures

    /** The figures reported for a monitor. The stored checks are only the latest ones; the consecutive
        failures nevertheless count every failure since the last reset. */
    method Stats(id: ID) returns (r: Result<MonitorStats>)
      requires Valid()
      ensures id !in byID ==> r == Failure(MonitorNotFound)
      ensures id in byID ==> r.Success? && r.value.consecutiveFailure == Streak(run.log, id)
      ensures id in byID ==>
        r.value.lastCheckedAt == byID[id].lastCheckedAt && r.value.lastStatusCode == byID[id].lastStatusCode
      ensures id in byID ==>
        var records := if id in checks then checks[id] else [];
        r.value.checksTotal == |records| && r.value.successful == Successes(records)
        && r.value.successful + r.value.failed == r.value.checksTotal
    {
      if id !in byID { return Failure(MonitorNotFound); }
      CountIsStreak(run, id);
      FactOf(run, Agreement);
      ClauseOf(run.store, Open);
      var records := if id in checks then checks[id] else [];
      var monitor := byID[id];
      if |records| == 0 { return Success(MonitorStats(0, 0, 0, 0, monitor.lastCheckedAt, monitor.lastStatusCode)); }
      var successful, failed, i := 0, 0, |records|;
      while i > 0
        invariant 0 <= i <= |records|
        invariant successful == Successes(records[i..]) && successful + failed == |records| - i
      {
        i := i - 1;
        assert records[i..][1..] == records[i + 1..];
        if records[i].success { successful := successful + 1; } else { failed := failed + 1; }
      }
      assert records[0..] == records;
      var consecutive := 0;
      if id in openIncidentByMonitor { consecutive := incidents[openIncidentByMonitor[id]].failures; }
      return Success(MonitorStats(|records|, successful, failed, consecutive,
                                  monitor.lastCheckedAt, monitor.lastStatusCode));
    }
  }
}

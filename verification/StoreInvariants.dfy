/** Every operation of the store keeps the agreement between its indexes. */
module StoreInvariants {
  import opened Identifiers
  import opened Model
  import opened Sequences
  import opened StoreSpec

  // ------------------------------------------------------------------ building blocks

  lemma CloseActive(jobs: map<ID, Job>, active: map<ID, ID>, j: ID, job: Job)
    requires ActiveAgrees(jobs, active) && j in jobs && !jobs[j].Terminal() && job.Terminal()
    ensures ActiveAgrees(jobs[j := job], active - {jobs[j].monitor})
  {
  }

  lemma EvictActive(jobs: map<ID, Job>, active: map<ID, ID>, j: ID)
    requires ActiveAgrees(jobs, active)
    ensures ActiveAgrees(EvictJob(jobs, j), active)
  {
  }

  lemma FinishActive(s: Store, j: ID, status: Status)
    requires Inv(s) && j in s.jobs && !s.jobs[j].Terminal() && (status.Completed? || status.Dead?)
    ensures ActiveAgrees(FinishJob(s, j, status).jobs, FinishJob(s, j, status).active)
  {
    ClauseOf(s, Active);
    CloseActive(s.jobs, s.active, j, Close(s.jobs[j], status));
    EvictActive(s.jobs[j := Close(s.jobs[j], status)], s.active - {s.jobs[j].monitor}, (s.terminal + [j])[0]);
  }

  lemma FinishKeepsInv(s: Store, j: ID, status: Status)
    requires Inv(s) && j in s.jobs && !s.jobs[j].Terminal()
    requires status.Completed? || status.Dead?
    ensures Inv(FinishJob(s, j, status))
  {
    var t := FinishJob(s, j, status);
    FinishActive(s, j, status);
    assert forall k :: k in t.jobs ==> k in s.jobs && (k != j ==> t.jobs[k] == s.jobs[k]);
    assert j in t.jobs ==> t.jobs[j] == Close(s.jobs[j], status);
    forall c ensures ClauseHolds(t, c) {
      ClauseOf(s, c);
      if c == Windows { } else { ClauseOf(s, Jobs); }
    }
  }

  lemma KillKeepsInv(s: Store, m: ID)
    requires Inv(s)
    ensures Inv(KillActive(s, m)) && m !in KillActive(s, m).active
    ensures KillActive(s, m).monitors == s.monitors && KillActive(s, m).byURL == s.byURL
  {
    ClauseOf(s, Active);
    if m in s.active { FinishKeepsInv(s, s.active[m], Dead); }
  }

  lemma CloseOpen(incidents: map<ID, Incident>, open: map<ID, ID>, m: ID, k: ID)
    requires OpenAgrees(incidents, open) && m in open
    ensures OpenAgrees(EvictIncident(incidents[open[m] := incidents[open[m]].(open := false)], k), open - {m})
    ensures OpenAgrees(incidents[open[m] := incidents[open[m]].(open := false)], open - {m})
  {
  }

  lemma ResolveKeepsInv(s: Store, m: ID)
    requires Inv(s)
    ensures Inv(ResolveOpen(s, m)) && m !in ResolveOpen(s, m).open
    ensures ResolveOpen(s, m).monitors == s.monitors && ResolveOpen(s, m).byURL == s.byURL
    ensures ResolveOpen(s, m).active == s.active
  {
    ClauseOf(s, Open);
    forall c ensures ClauseHolds(ResolveOpen(s, m), c) {
      ClauseOf(s, c); ClauseOf(s, Windows);
      if c == Open && m in s.open {
        CloseOpen(s.incidents, s.open, m, (s.resolved + [s.open[m]])[0]);
      }
    }
  }

  /** Replacing a live job's record by another live one of the same identity. */
  lemma PutJobKeepsInv(s: Store, j: ID, job: Job)
    requires Inv(s) && j in s.jobs && !s.jobs[j].Terminal() && !job.Terminal()
    requires job.monitor == s.jobs[j].monitor && job.kind == s.jobs[j].kind
    requires JobAgrees(j, s.jobs[j]) ==> JobAgrees(j, job)
    ensures Inv(s.(jobs := s.jobs[j := job]))
  {
    var t := s.(jobs := s.jobs[j := job]);
    forall c ensures ClauseHolds(t, c) {
      ClauseOf(s, c); ClauseOf(s, Jobs);
    }
  }

  lemma AddJobKeepsInv(s: Store, job: Job)
    requires Inv(s) && job.id !in s.jobs && job.id != "" && job.monitor in s.monitors && job.monitor !in s.active
    requires job.status.Scheduled? && job.leaseToken == ""
    requires s.monitors[job.monitor].enabled || job.kind.Manual?
    ensures Inv(AddJob(s, job))
  {
    forall c ensures ClauseHolds(AddJob(s, job), c) {
      ClauseOf(s, c);
    }
  }

  /** Changing a monitor's schedule or last result. */
  lemma SetMonitorKeepsInv(s: Store, m: ID, mon: Monitor)
    requires Inv(s) && m in s.monitors
    requires mon.config == s.monitors[m].config && mon.interval == s.monitors[m].interval
    requires mon.enabled == s.monitors[m].enabled && mon.nextCheckAt != 0
    ensures Inv(s.(monitors := s.monitors[m := mon]))
  {
    assert s.monitors[m := mon].Keys == s.monitors.Keys;
    var t := s.(monitors := s.monitors[m := mon]);
    forall c ensures ClauseHolds(t, c) {
      ClauseOf(s, c);
    }
  }

  // ------------------------------------------------------------------ operations

  lemma FileUrl(monitors: map<ID, Monitor>, byURL: map<string, ID>, id: ID, m: Monitor)
    requires UrlsAgree(monitors, byURL)
    requires id !in monitors && m.config.url !in byURL
    ensures UrlsAgree(monitors[id := m], byURL[m.config.url := id])
  {
  }

  lemma FileMonitorKeepsInv(s: Store, id: ID, m: Monitor)
    requires Inv(s) && id !in s.monitors && MonitorAgrees(m) && m.config.url !in s.byURL
    ensures Inv(s.(monitors := s.monitors[id := m], byURL := s.byURL[m.config.url := id]))
  {
    var t := s.(monitors := s.monitors[id := m], byURL := s.byURL[m.config.url := id]);
    FileUrl(s.monitors, s.byURL, id, m) by { ClauseOf(s, Urls); }
    forall c ensures ClauseHolds(t, c) {
      ClauseOf(s, c);
      if c == Disabled { ClauseOf(s, Jobs); }
    }
  }

  lemma CreateKeepsInv(s: Store, id: ID, w: Settings, urlAllowed: bool, now: Time)
    requires Inv(s) && id !in s.monitors && now != 0
    ensures Inv(Create(s, id, w, urlAllowed, now).0)
  {
    if Create(s, id, w, urlAllowed, now).1.Success? {
      FileMonitorKeepsInv(s, id, Monitor(w.config, w.interval, w.enabled, now, 0, 0));
    }
  }

  lemma MoveUrl(monitors: map<ID, Monitor>, byURL: map<string, ID>, id: ID, m: Monitor)
    requires UrlsAgree(monitors, byURL) && id in monitors
    requires m.config.url in byURL ==> byURL[m.config.url] == id
    ensures var url := monitors[id].config.url;
      UrlsAgree(monitors[id := m], MovedUrl(byURL, id, url, m.config.url))
  {
    var url := monitors[id].config.url;
    if m.config.url != url {
      assert m.config.url !in byURL;
      var rest := monitors - {id};
      assert UrlsAgree(rest, byURL - {url});
      FileUrl(rest, byURL - {url}, id, m);
      assert rest[id := m] == monitors[id := m];
    }
  }

  /** The monitor's record replaced, and its URL moved in the index. */
  function Replaced(s: Store, id: ID, m: Monitor): Store
    requires id in s.monitors
  {
    s.(monitors := s.monitors[id := m],
       byURL := MovedUrl(s.byURL, id, s.monitors[id].config.url, m.config.url))
  }

  lemma ReplaceKeepsInv(s: Store, id: ID, m: Monitor)
    requires Inv(s) && id in s.monitors && MonitorAgrees(m)
    requires m.config.url in s.byURL ==> s.byURL[m.config.url] == id
    requires !m.enabled ==> id !in s.active
    ensures Inv(Replaced(s, id, m))
  {
    assert s.monitors[id := m].Keys == s.monitors.Keys;
    var t := Replaced(s, id, m);
    forall c ensures ClauseHolds(t, c) {
      ClauseOf(s, c);
      match c
      case Urls => MoveUrl(s.monitors, s.byURL, id, m);
      case Disabled => ClauseOf(s, Active);
      case _ =>
    }
  }

  lemma UpdateKeepsInv(s: Store, id: ID, p: Patch, urlAllowed: bool, now: Time)
    requires Inv(s) && now != 0
    ensures Inv(Update(s, id, p, urlAllowed, now).0)
  {
    if Update(s, id, p, urlAllowed, now).1.Success? {
      var was := s.monitors[id];
      var w := Proposal(was, p);
      assert MonitorAgrees(was) by { ClauseOf(s, Monitors); }
      var m := MonitorAfterUpdate(was, w, now);
      assert MonitorAgrees(m);
      KillKeepsInv(s, id);
      var killed := if !w.enabled || w.config != was.config then KillActive(s, id) else s;
      ResolveKeepsInv(killed, id);
      ReplaceKeepsInv(ClearedForUpdate(s, id, w), id, m);
    }
  }

  lemma DeleteKeepsInv(s: Store, id: ID)
    requires Inv(s)
    ensures Inv(Delete(s, id).0)
  {
    forall c ensures ClauseHolds(Delete(s, id).0, c) {
      ClauseOf(s, c); if c == Checks { ClauseOf(s, Open); }
    }
  }

  lemma ReplanKeepsInv(s: Store, m: ID, now: Time)
    requires Inv(s) && m in s.monitors && now != 0
    ensures Inv(Replan(s, m, now))
  {
    SetMonitorKeepsInv(s, m, s.monitors[m].(nextCheckAt := now + s.monitors[m].interval * SECOND));
  }

  lemma SweepKeepsInv(s: Store, j: ID, now: Time, maxAttempts: nat)
    requires Inv(s) && now != 0
    ensures Inv(SweepJob(s, j, now, maxAttempts))
  {
    if j in s.jobs && (Expired(s.jobs[j], now) || ExhaustedRetry(s.jobs[j], now, maxAttempts)) {
      if s.jobs[j].attempt >= maxAttempts {
        FinishKeepsInv(s, j, Dead);
        if s.jobs[j].monitor in s.monitors { ReplanKeepsInv(FinishJob(s, j, Dead), s.jobs[j].monitor, now); }
      } else {
        PutJobKeepsInv(s, j, Close(s.jobs[j], Failed).(availableAt := now));
      }
    }
  }

  lemma ClaimKeepsInv(s: Store, j: ID, token: ID, expires: Time)
    requires Inv(s) && j in s.jobs && (s.jobs[j].status.Scheduled? || s.jobs[j].status.Failed?)
    ensures Inv(ClaimJob(s, j, token, expires))
  {
    PutJobKeepsInv(s, j, s.jobs[j].(status := Scheduled, leaseExpiresAt := expires, publicationToken := token));
  }

  lemma BirthKeepsInv(s: Store, m: ID, token: ID, now: Time, expires: Time)
    requires Inv(s) && Due(s, m, now)
    requires NewCheckJobID(m, s.monitors[m].nextCheckAt, now) !in s.jobs
    ensures Inv(AddJob(s, PlannedJob(s, m, token, now, expires)))
  {
    AddJobKeepsInv(s, PlannedJob(s, m, token, now, expires));
  }

  lemma ManualKeepsInv(s: Store, m: ID, id: ID, now: Time)
    requires Inv(s) && id !in s.jobs && id != ""
    ensures Inv(CreateManual(s, m, id, now).0)
  {
    ClauseOf(s, Active);
    if m in s.monitors && m !in s.active {
      AddJobKeepsInv(s, Job(id, m, Manual, now, Scheduled, 0, now, 0, "", ""));
    }
  }

  lemma PublishedKeepsInv(s: Store, c: Claim, now: Time)
    requires Inv(s)
    ensures Inv(MarkPublished(s, c, now).0)
  {
    if ClaimHolds(s, c, now) {
      PutJobKeepsInv(s, c.job, s.jobs[c.job].(status := Queued, leaseExpiresAt := 0));
    }
  }

  lemma ReleaseKeepsInv(s: Store, c: Claim, now: Time)
    requires Inv(s)
    ensures Inv(ReleasePublish(s, c, now).0)
  {
    if ClaimHolds(s, c, now) {
      PutJobKeepsInv(s, c.job, s.jobs[c.job].(leaseExpiresAt := 0, publicationToken := ""));
    }
  }

  lemma RecoverKeepsInv(s: Store, now: Time)
    requires Inv(s)
    ensures Inv(Recover(s, now))
  {
    forall c ensures ClauseHolds(Recover(s, now), c) {
      ClauseOf(s, c);
    }
  }

  lemma ProcessingKeepsInv(s: Store, m: ID, j: ID, attempt: int, token: ID, now: Time, timeout: int)
    requires Inv(s) && token != ""
    ensures Inv(MarkProcessing(s, m, j, attempt, token, now, timeout).0)
  {
    var found := ProcessingOutcome(s, m, j, attempt);
    if found.Success? {
      PutJobKeepsInv(s, j, found.value.(status := Processing, attempt := attempt,
                                        leaseExpiresAt := now + Timeout(timeout), leaseToken := token));
    }
  }

  lemma FailedKeepsInv(s: Store, lease: Lease, now: Time, retryAt: Time, wall: Time)
    requires Inv(s)
    ensures Inv(MarkFailed(s, lease, now, retryAt, wall).0)
  {
    if Authority(s, lease, now) {
      PutJobKeepsInv(s, lease.job, Close(s.jobs[lease.job], Failed).(availableAt := retryAt));
    }
  }

  lemma DeadKeepsInv(s: Store, lease: Lease, now: Time, nextCheckAt: Time, wall: Time)
    requires Inv(s) && nextCheckAt != 0
    ensures Inv(MarkDead(s, lease, now, nextCheckAt, wall).0)
  {
    if Authority(s, lease, now) {
      FinishKeepsInv(s, lease.job, Dead);
      var t := FinishJob(s, lease.job, Dead);
      SetMonitorKeepsInv(t, lease.monitor, t.monitors[lease.monitor].(nextCheckAt := nextCheckAt));
    }
  }

  lemma StoreCheckKeepsInv(s: Store, r: CheckRecord)
    requires Inv(s) && r.monitor in s.monitors
    ensures Inv(StoreCheck(s, r))
  {
    forall c ensures ClauseHolds(StoreCheck(s, r), c) {
      ClauseOf(s, c); ClauseOf(s, Windows);
    }
  }

  lemma PutIncident(s: Store, i: ID, incident: Incident)
    requires Inv(s) && incident.open && incident.failures >= 1
    requires incident.monitor in s.checks && (i in s.incidents ==> s.incidents[i].monitor == incident.monitor)
    requires incident.monitor in s.open ==> s.open[incident.monitor] == i
    ensures Inv(s.(incidents := s.incidents[i := incident], open := s.open[incident.monitor := i]))
  {
    var t := s.(incidents := s.incidents[i := incident], open := s.open[incident.monitor := i]);
    forall c ensures ClauseHolds(t, c) {
      ClauseOf(s, c);
      match c
      case Incidents => ClauseOf(s, Checks);
      case _ =>
    }
  }

  lemma UpdateIncidentKeepsInv(s: Store, r: CheckRecord, incident: ID)
    requires Inv(s) && r.monitor in s.checks && incident !in s.incidents
    ensures Inv(UpdateIncident(s, r, incident))
  {
    ClauseOf(s, Open);
    if r.success {
      ResolveKeepsInv(s, r.monitor);
    } else if r.monitor in s.open {
      var i := s.open[r.monitor];
      PutIncident(s, i, s.incidents[i].(failures := s.incidents[i].failures + 1));
      assert s.open[r.monitor := i] == s.open;
    } else {
      PutIncident(s, incident, Incident(r.monitor, true, 1));
    }
  }

  lemma ProcessedKeepsInv(s: Store, j: ID)
    requires Inv(s) && j !in s.processed
    ensures Inv(s.(processed := Remember(s.processed, j, s.caps.processed)))
  {
    var t := s.(processed := Remember(s.processed, j, s.caps.processed));
    forall c ensures ClauseHolds(t, c) {
      ClauseOf(s, c); ClauseOf(s, Windows);
    }
  }

  lemma AddCheckKeepsInv(s: Store, r: CheckRecord, lease: Lease, incident: ID, now: Time)
    requires Inv(s) && incident !in s.incidents && now != 0
    ensures Inv(AddCheck(s, r, lease, incident, now).0)
  {
    if AddCheckError(s, r, lease, now).None? {
      FinishKeepsInv(s, r.job, Completed);
      var done := FinishJob(s, r.job, Completed);
      var m := MonitorAfterCheck(s.monitors[r.monitor], s.jobs[r.job].kind, r, now);
      assert m.nextCheckAt != 0 by { ClauseOf(s, Monitors); }
      SetMonitorKeepsInv(done, r.monitor, m);
      var planned := done.(monitors := done.monitors[r.monitor := m]);
      ProcessedKeepsInv(planned, r.job);
      var remembered := planned.(processed := Remember(planned.processed, r.job, planned.caps.processed));
      StoreCheckKeepsInv(remembered, r);
      UpdateIncidentKeepsInv(StoreCheck(remembered, r), r, incident);
    }
  }
}
